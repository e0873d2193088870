/**
 * Locating the WeChat window on Windows: recognising WeChat's process names,
 * the first WeChat window of a window list (as the test double provides it),
 * and the rule that picks one window among those UI Automation finds. The UI
 * Automation searches themselves are parameters: their outcomes are given.
 */
module Uia {
  import opened Base
  import opened Text

  datatype WindowInfo = WindowInfo(hwnd: int, processName: string, title: string)

  const WechatProcessNames: set<string> := {"weixin.exe", "wechat.exe", "wechatappex.exe"}

  /** `is_wechat_process`: trimmed and ASCII-lowercased, the name is one of
      WeChat's executables. */
  predicate IsWechatProcess(name: string) {
    AsciiLower(Trim(name)) in WechatProcessNames
  }

  /** Recognition ignores ASCII case and surrounding whitespace: lowering or
      trimming the name first changes nothing. */
  lemma IsWechatProcessNormalised(name: string)
    ensures IsWechatProcess(AsciiLower(name)) == IsWechatProcess(name)
    ensures IsWechatProcess(Trim(name)) == IsWechatProcess(name)
  {
    TrimLower(name);
    AsciiLowerIdempotent(Trim(name));
    TrimIdempotent(Rust, name);
  }

  /** The position of the first WeChat window, or the list's length. */
  function FirstWechat(windows: seq<WindowInfo>): (i: nat)
    ensures i <= |windows|
    ensures i < |windows| ==> IsWechatProcess(windows[i].processName)
    ensures forall j :: 0 <= j < i ==> !IsWechatProcess(windows[j].processName)
  {
    if windows == [] then 0
    else if IsWechatProcess(windows[0].processName) then 0
    else
      var rest := windows[1..];
      var i := FirstWechat(rest);
      assert forall j :: 1 <= j <= |windows| - 1 ==> windows[j] == rest[j - 1];
      1 + i
  }

  /** `find_wechat_hwnd` over the listed windows. */
  function FindWechatHwnd(windows: seq<WindowInfo>): (r: Option<int>)
    ensures r.None? <==> forall j :: 0 <= j < |windows| ==> !IsWechatProcess(windows[j].processName)
    ensures r.Some? ==> exists i :: 0 <= i < |windows| && r.value == windows[i].hwnd
                                    && IsWechatProcess(windows[i].processName)
                                    && forall j :: 0 <= j < i ==> !IsWechatProcess(windows[j].processName)
  {
    var i := FirstWechat(windows);
    if i < |windows| then Some(windows[i].hwnd) else None
  }

  /** The test double behind `UiaProvider`. */
  class MockUia {
    var windows: seq<WindowInfo>

    /** `MockUia::default`. */
    constructor ()
      ensures windows == []
    {
      windows := [];
    }

    /** `with_window`: one window, handle 1001. */
    constructor WithWindow(processName: string, title: string)
      ensures windows == [WindowInfo(1001, processName, title)]
    {
      windows := [WindowInfo(1001, processName, title)];
    }

    /** `add_window`: appended after the existing windows, which are untouched. */
    method AddWindow(hwnd: int, processName: string, title: string)
      modifies this
      ensures windows == old(windows) + [WindowInfo(hwnd, processName, title)]
    {
      windows := windows + [WindowInfo(hwnd, processName, title)];
    }

    /** `list_windows`. */
    function ListWindows(): seq<WindowInfo>
      reads this
    {
      windows
    }
  }

  lemma WeixinTrimmed()
    ensures Trim("Weixin.exe") == "Weixin.exe"
  {
    assert !IsSpace(Rust, 'W') && !IsSpace(Rust, 'e');
    TrimFixesUntrimmed(Rust, "Weixin.exe");
  }

  lemma WeixinLowered()
    ensures AsciiLower("Weixin.exe") == "weixin.exe"
  {
    var t := "eixin.exe";
    assert "Weixin.exe" == ['W'] + t && "weixin.exe" == ['w'] + t;
    assert ("Weixin.exe")[1..] == t;
    assert forall i :: 0 <= i < |t| ==> !('A' <= t[i] <= 'Z');
    LowerKeepsNonUpper(t);
  }

  /** "Weixin.exe" is a WeChat process name. */
  lemma WeixinIsWechat()
    ensures IsWechatProcess("Weixin.exe")
  {
    WeixinTrimmed();
    WeixinLowered();
  }

  /** The window of a "Weixin.exe" process is found by its handle. */
  lemma WeixinFound()
    ensures FindWechatHwnd([WindowInfo(1001, "Weixin.exe", "WeChat")]) == Some(1001)
  {
    WeixinIsWechat();
    assert FirstWechat([WindowInfo(1001, "Weixin.exe", "WeChat")]) == 0;
  }

  /** Adding a window behind a WeChat window does not change which is found. */
  lemma FindIgnoresLaterWindows(windows: seq<WindowInfo>, w: WindowInfo)
    requires FindWechatHwnd(windows).Some?
    ensures FindWechatHwnd(windows + [w]) == FindWechatHwnd(windows)
  {
    var i :| 0 <= i < |windows| && FindWechatHwnd(windows).value == windows[i].hwnd
             && IsWechatProcess(windows[i].processName)
             && forall j :: 0 <= j < i ==> !IsWechatProcess(windows[j].processName);
    assert FirstWechat(windows) == i;
    assert (windows + [w])[i] == windows[i];
    assert FirstWechat(windows + [w]) == i;
  }

  // ---------------------------------------------------------------- picking

  const WechatMainClass: string := "WeChatMainWndForPC"
  const ErrNoWindows: string := "No windows found"
  const ErrNotFound: string := "WeChat window not found"

  /** A window as UI Automation reports it: its class name and its name, each
      `None` when reading it failed. */
  datatype WindowElement = WindowElement(className: Option<string>, name: Option<string>)

  /** `find_wechat_windows`: the windows of WeChat's main class when that search
      succeeds with some, otherwise every top-level window. */
  function FindWechatWindows(byClass: Result<seq<WindowElement>, string>,
                             allWindows: Result<seq<WindowElement>, string>): (r: Result<seq<WindowElement>, string>)
    ensures byClass.Ok? && byClass.value != [] ==> r == byClass
    ensures !(byClass.Ok? && byClass.value != []) ==>
      r == (if allWindows.Ok? then allWindows else Err(ErrNoWindows))
  {
    if byClass.Ok? && byClass.value != [] then byClass
    else
      match allWindows
      case Ok(ws) => Ok(ws)
      case Err(_) => Err(ErrNoWindows)
  }

  predicate IsMainClass(w: WindowElement) {
    w.className == Some(WechatMainClass)
  }

  /** The sort key: the name's length in UTF-8 bytes, 0 when it cannot be read. */
  function NameLen(w: WindowElement): nat {
    match w.name
    case Some(n) => Utf8Len(n)
    case None => 0
  }

  /** Rust `max_by_key(NameLen)`: among the longest names, the last. */
  function LongestLast(ws: seq<WindowElement>): (i: nat)
    requires ws != []
    ensures i < |ws|
    ensures forall j :: 0 <= j < |ws| ==> NameLen(ws[j]) <= NameLen(ws[i])
    ensures forall j :: i < j < |ws| ==> NameLen(ws[j]) < NameLen(ws[i])
  {
    if |ws| == 1 then 0
    else
      var i := LongestLast(ws[..|ws| - 1]);
      assert forall j :: 0 <= j < |ws| - 1 ==> ws[..|ws| - 1][j] == ws[j];
      if NameLen(ws[|ws| - 1]) >= NameLen(ws[i]) then |ws| - 1 else i
  }

  /** The first window of the main class, if any. */
  function FirstMainClass(ws: seq<WindowElement>): (i: nat)
    ensures i <= |ws|
    ensures i < |ws| ==> IsMainClass(ws[i])
    ensures forall j :: 0 <= j < i ==> !IsMainClass(ws[j])
  {
    if ws == [] then 0
    else if IsMainClass(ws[0]) then 0
    else 1 + FirstMainClass(ws[1..])
  }

  /** The selection rule of `pick_wechat_window` on the windows found. */
  function Pick(ws: seq<WindowElement>): Result<WindowElement, string> {
    var m := FirstMainClass(ws);
    if m < |ws| then Ok(ws[m])
    else if ws == [] then Err(ErrNotFound)
    else Ok(ws[LongestLast(ws)])
  }

  /** The first window of WeChat's main class wins; without one, the window with
      the longest name, the last of equally long ones; no windows, no pick. */
  lemma PickSpec(ws: seq<WindowElement>)
    ensures Pick(ws).Err? <==> ws == []
    ensures Pick(ws).Err? ==> Pick(ws).error == ErrNotFound
    ensures forall i :: 0 <= i < |ws| && IsMainClass(ws[i]) && (forall j :: 0 <= j < i ==> !IsMainClass(ws[j]))
              ==> Pick(ws) == Ok(ws[i])
    ensures (forall j :: 0 <= j < |ws| ==> !IsMainClass(ws[j])) && ws != [] ==>
      exists i :: 0 <= i < |ws| && Pick(ws) == Ok(ws[i])
                  && (forall j :: 0 <= j < |ws| ==> NameLen(ws[j]) <= NameLen(ws[i]))
                  && (forall j :: i < j < |ws| ==> NameLen(ws[j]) < NameLen(ws[i]))
  {
    var m := FirstMainClass(ws);
    forall i | 0 <= i < |ws| && IsMainClass(ws[i]) && (forall j :: 0 <= j < i ==> !IsMainClass(ws[j]))
      ensures Pick(ws) == Ok(ws[i])
    {
      assert m == i;
    }
    if (forall j :: 0 <= j < |ws| ==> !IsMainClass(ws[j])) && ws != [] {
      assert m == |ws|;
      var i := LongestLast(ws);
      assert Pick(ws) == Ok(ws[i]);
    }
  }

  /** `pick_wechat_window`: search, then the first main-class window, then the
      longest name scanned in order. */
  method PickWechatWindow(byClass: Result<seq<WindowElement>, string>, allWindows: Result<seq<WindowElement>, string>)
    returns (r: Result<WindowElement, string>)
    ensures r == match FindWechatWindows(byClass, allWindows)
      case Err(e) => Err(e)
      case Ok(ws) => Pick(ws)
  {
    var found := FindWechatWindows(byClass, allWindows);
    if found.Err? {
      return Err(found.error);
    }
    var ws := found.value;
    var m := FindMainClass(ws);
    if m < |ws| {
      return Ok(ws[m]);
    }
    if ws == [] {
      return Err(ErrNotFound);
    }
    var best := FindLongestLast(ws);
    return Ok(ws[best]);
  }

  /** The first loop of `pick_wechat_window`: the first main-class window. */
  method FindMainClass(ws: seq<WindowElement>) returns (m: nat)
    ensures m == FirstMainClass(ws)
  {
    for k := 0 to |ws|
      invariant forall j :: 0 <= j < k ==> !IsMainClass(ws[j])
    {
      if ws[k].className == Some(WechatMainClass) {
        assert FirstMainClass(ws) == k;
        return k;
      }
    }
    assert FirstMainClass(ws) == |ws|;
    return |ws|;
  }

  /** The `max_by_key` scan of `pick_wechat_window`: a later window of at least
      the same name length replaces the best so far. */
  method FindLongestLast(ws: seq<WindowElement>) returns (best: nat)
    requires ws != []
    ensures best == LongestLast(ws)
  {
    best := 0;
    for k := 1 to |ws|
      invariant best < k && best == LongestLast(ws[..k])
    {
      assert ws[..k + 1][..k] == ws[..k];
      if NameLen(ws[k]) >= NameLen(ws[best]) {
        best := k;
      }
    }
    assert ws[..|ws|] == ws;
  }

  /** A main-class window is taken even when another window has a longer name. */
  lemma PickPrefersMainClass()
    ensures Pick([WindowElement(Some("Other"), Some("a much longer title")), WindowElement(Some(WechatMainClass), Some("微信"))])
            == Ok(WindowElement(Some(WechatMainClass), Some("微信")))
  {
    var ws := [WindowElement(Some("Other"), Some("a much longer title")), WindowElement(Some(WechatMainClass), Some("微信"))];
    assert "Other" != WechatMainClass by { assert |"Other"| != |WechatMainClass|; }
    assert !IsMainClass(ws[0]) && IsMainClass(ws[1]);
    PickSpec(ws);
  }
}
