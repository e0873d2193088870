/**
 * Finding the WeChat application on macOS among the running applications'
 * bundle identifiers, and the test double that lists them.
 */
module Ax {
  import opened Base

  const WechatBundleId: string := "com.tencent.xinWeChat"

  /** `find_wechat_app`: the first bundle id equal to WeChat's, compared exactly. */
  function FindWechatApp(bundles: seq<string>): (r: Option<string>)
    ensures r.Some? ==> r.value == WechatBundleId
    ensures r.Some? <==> WechatBundleId in bundles
  {
    if bundles == [] then None
    else if bundles[0] == WechatBundleId then Some(bundles[0])
    else FindWechatApp(bundles[1..])
  }

  /** The comparison is case-sensitive: a lowercased id is not WeChat's. */
  lemma FindWechatAppExact()
    ensures FindWechatApp(["com.tencent.xinwechat"]) == None
  {
    assert "com.tencent.xinwechat"[15] != WechatBundleId[15];
  }

  /** Which applications come before or after WeChat's does not matter. */
  lemma FindWechatAppAnywhere(before: seq<string>, after: seq<string>)
    ensures FindWechatApp(before + [WechatBundleId] + after) == Some(WechatBundleId)
  {
    assert (before + [WechatBundleId] + after)[|before|] == WechatBundleId;
  }

  /** The test double behind `AxProvider`. */
  class MockAx {
    var bundles: seq<string>

    /** `MockAx::default`. */
    constructor ()
      ensures bundles == []
    {
      bundles := [];
    }

    /** `with_bundle`: exactly one bundle id. */
    constructor WithBundle(bundleId: string)
      ensures bundles == [bundleId]
    {
      bundles := [bundleId];
    }

    /** `add_bundle`: appended after the existing ids. */
    method AddBundle(bundleId: string)
      modifies this
      ensures bundles == old(bundles) + [bundleId]
    {
      bundles := bundles + [bundleId];
    }

    /** `bundle_ids`. */
    function BundleIds(): seq<string>
      reads this
    {
      bundles
    }
  }

  /** The unit test: a provider holding only WeChat's id finds it. */
  method FindsWechatInMock() returns (found: Option<string>)
    ensures found == Some(WechatBundleId)
  {
    var mock := new MockAx.WithBundle(WechatBundleId);
    found := FindWechatApp(mock.BundleIds());
  }
}
