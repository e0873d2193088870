/**
 * The Windows build script's pure decisions: whether the embedded Python is
 * bundled, which preparation steps run, how the `._pth` file is found, and the
 * rewrite that lets the embedded interpreter import `site` and see
 * `Lib\site-packages`. Downloads, unzipping, subprocesses and file I/O are not
 * modelled; their outcomes appear as parameters.
 */
module Build {
  import opened Base
  import opened Text

  const SitePackagesLine: string := "Lib\\site-packages"
  const ImportSiteLine: string := "import site"
  const CommentedImportSite: string := "#import site"
  const ErrPthNotFound: string := "python ._pth file not found"

  // ---------------------------------------------------------------- bundling

  /** `should_bundle_embedded_python`: `WEREPLY_BUNDLE_PYTHON` is exactly "1",
      or else `PROFILE` is exactly "release"; an unset (or non-Unicode)
      variable is `None`. */
  predicate ShouldBundleEmbeddedPython(bundleVar: Option<string>, profile: Option<string>) {
    if bundleVar == Some("1") then true
    else
      match profile
      case Some(p) => p == "release"
      case None => false
  }

  lemma ShouldBundleSpec(bundleVar: Option<string>, profile: Option<string>)
    ensures ShouldBundleEmbeddedPython(bundleVar, profile) <==> bundleVar == Some("1") || profile == Some("release")
  {
  }

  // ---------------------------------------------------------------- preparation

  /** The file-system steps of `prepare_embedded_python`, in order. */
  datatype PrepareStep =
    | RemoveResources
    | CreateResources
    | CreateCache
    | DownloadEmbed
    | Unzip
    | PatchPth
    | DownloadGetPip
    | RunGetPip
    | CreateSitePackages
    | PipInstall
    | WriteMarker

  /** The steps run when none fails: nothing when the ready marker and
      `python.exe` are both present; otherwise a fresh resources directory
      (removing an old one first), each download only when its cached file is
      missing, and the marker written last. */
  function PreparePlan(markerExists: bool, pythonExists: bool, resourcesExist: bool,
                       embedCached: bool, getPipCached: bool): seq<PrepareStep> {
    if markerExists && pythonExists then []
    else
      (if resourcesExist then [RemoveResources] else [])
      + [CreateResources, CreateCache]
      + (if embedCached then [] else [DownloadEmbed])
      + [Unzip, PatchPth]
      + (if getPipCached then [] else [DownloadGetPip])
      + [RunGetPip, CreateSitePackages, PipInstall, WriteMarker]
  }

  /** Preparation is skipped exactly when both the marker and `python.exe`
      exist; otherwise the marker is written last, right after the packages are
      installed, and nowhere before. */
  lemma PreparePlanSkip(markerExists: bool, pythonExists: bool, resourcesExist: bool, embedCached: bool, getPipCached: bool)
    ensures var plan := PreparePlan(markerExists, pythonExists, resourcesExist, embedCached, getPipCached);
      && (plan == [] <==> markerExists && pythonExists)
      && (plan != [] ==> plan[|plan| - 2..] == [PipInstall, WriteMarker] && WriteMarker !in plan[..|plan| - 1])
  {
    var plan := PreparePlan(markerExists, pythonExists, resourcesExist, embedCached, getPipCached);
    if plan != [] {
      var head := (if resourcesExist then [RemoveResources] else [])
        + [CreateResources, CreateCache]
        + (if embedCached then [] else [DownloadEmbed])
        + [Unzip, PatchPth]
        + (if getPipCached then [] else [DownloadGetPip]);
      assert plan == head + [RunGetPip, CreateSitePackages, PipInstall, WriteMarker];
      assert WriteMarker !in head;
      assert plan[..|plan| - 1] == head + [RunGetPip, CreateSitePackages, PipInstall];
    }
  }

  /** A download or removal happens exactly when its file or directory calls
      for it. */
  lemma PreparePlanDownloads(markerExists: bool, pythonExists: bool, resourcesExist: bool, embedCached: bool, getPipCached: bool)
    requires !(markerExists && pythonExists)
    ensures var plan := PreparePlan(markerExists, pythonExists, resourcesExist, embedCached, getPipCached);
      && (DownloadEmbed in plan <==> !embedCached)
      && (DownloadGetPip in plan <==> !getPipCached)
      && (RemoveResources in plan <==> resourcesExist)
  {
  }

  // ---------------------------------------------------------------- the ._pth file

  /** The `._pth` file name test of `find_pth_file`. */
  predicate IsPthName(name: string) {
    "python" <= name && EndsWith(name, "._pth")
  }

  /** `find_pth_file` over the directory entries in the order they are read;
      a name that is not valid Unicode is `None` and skipped. */
  function FindPthFile(names: seq<Option<string>>): (r: Result<string, string>)
    ensures r.Err? ==> r.error == ErrPthNotFound
    ensures r.Ok? <==> exists k :: 0 <= k < |names| && names[k].Some? && IsPthName(names[k].value)
    ensures r.Ok? ==> IsPthName(r.value) && exists k :: 0 <= k < |names| && names[k] == Some(r.value)
  {
    if names == [] then Err(ErrPthNotFound)
    else if names[0].Some? && IsPthName(names[0].value) then Ok(names[0].value)
    else
      var r := FindPthFile(names[1..]);
      assert forall k :: 1 <= k < |names| ==> names[1..][k - 1] == names[k];
      r
  }

  /** A line after `#import site` is uncommented. */
  function Uncomment(line: string): string {
    if Trim(line) == CommentedImportSite then ImportSiteLine else line
  }

  predicate HasSite(lines: seq<string>) {
    exists k :: 0 <= k < |lines| && Trim(lines[k]) == SitePackagesLine
  }

  predicate HasImportSite(lines: seq<string>) {
    exists k :: 0 <= k < |lines| && (Trim(lines[k]) == CommentedImportSite || Trim(lines[k]) == ImportSiteLine)
  }

  /** The lines `ensure_pth_allows_site_packages` writes for the lines it read. */
  function PthLines(lines: seq<string>): (r: seq<string>)
    ensures r != []
  {
    seq(|lines|, k requires 0 <= k < |lines| => Uncomment(lines[k]))
    + (if HasSite(lines) then [] else [SitePackagesLine])
    + (if HasImportSite(lines) then [] else [ImportSiteLine])
  }

  /** The file written: the lines joined by '\n', with a final '\n'. */
  function PthRewrite(contents: string): string {
    Join(PthLines(Lines(contents)), "\n") + "\n"
  }

  /** The loop of `ensure_pth_allows_site_packages`: each `#import site`
      line is uncommented in place, noting whether any line imports `site`. */
  method UncommentLines(read: seq<string>) returns (lines: seq<string>, hasImportSite: bool)
    ensures lines == seq(|read|, k requires 0 <= k < |read| => Uncomment(read[k]))
    ensures hasImportSite == HasImportSite(read)
  {
    lines := read;
    hasImportSite := false;
    for i := 0 to |lines|
      invariant |lines| == |read|
      invariant forall k :: 0 <= k < i ==> lines[k] == Uncomment(read[k])
      invariant forall k :: i <= k < |lines| ==> lines[k] == read[k]
      invariant hasImportSite <==> exists k :: 0 <= k < i && (Trim(read[k]) == CommentedImportSite || Trim(read[k]) == ImportSiteLine)
    {
      var trimmed := Trim(lines[i]);
      if trimmed == CommentedImportSite {
        lines := lines[i := ImportSiteLine];
        hasImportSite := true;
      } else if trimmed == ImportSiteLine {
        hasImportSite := true;
      }
    }
  }

  /** The line edits of `ensure_pth_allows_site_packages`: the loop above,
      then the missing entries pushed. */
  method RewritePthLines(read: seq<string>) returns (lines: seq<string>)
    ensures lines == PthLines(read)
  {
    var hasSite := exists k :: 0 <= k < |read| && Trim(read[k]) == SitePackagesLine;
    var hasImportSite;
    lines, hasImportSite := UncommentLines(read);
    if !hasSite {
      lines := lines + [SitePackagesLine];
      hasSite := true;
    }
    if !hasImportSite {
      lines := lines + [ImportSiteLine];
    }
  }

  /** `ensure_pth_allows_site_packages` on the file's contents: the new
      contents, which are always written. */
  method EnsurePthAllowsSitePackages(contents: string) returns (updated: string)
    ensures updated == PthRewrite(contents)
  {
    var lines := RewritePthLines(Lines(contents));
    updated := Join(lines, "\n") + "\n";
  }

  /** What the rewrite does to the lines: each line is kept in place, a
      commented `import site` uncommented; `Lib\site-packages` is appended
      exactly when no line trims to it, and then `import site` exactly when no
      line trims to it or to its commented form. */
  lemma PthLinesSpec(lines: seq<string>)
    ensures var r := PthLines(lines);
      && (forall k :: 0 <= k < |lines| ==>
            r[k] == (if Trim(lines[k]) == CommentedImportSite then ImportSiteLine else lines[k]))
      && |r| == |lines| + (if HasSite(lines) then 0 else 1) + (if HasImportSite(lines) then 0 else 1)
      && (!HasSite(lines) ==> r[|lines|] == SitePackagesLine)
      && (!HasImportSite(lines) ==> r[|r| - 1] == ImportSiteLine)
  {
  }

  lemma ImportSiteTrimmed()
    ensures Trim(ImportSiteLine) == ImportSiteLine
    ensures ImportSiteLine != CommentedImportSite
  {
    assert !IsSpace(Rust, 'i') && !IsSpace(Rust, 'e');
    TrimFixesUntrimmed(Rust, ImportSiteLine);
  }

  lemma SitePackagesTrimmed()
    ensures Trim(SitePackagesLine) == SitePackagesLine
    ensures SitePackagesLine != CommentedImportSite
  {
    assert !IsSpace(Rust, 'L') && !IsSpace(Rust, 's');
    TrimFixesUntrimmed(Rust, SitePackagesLine);
  }

  /** Lines with both entries and no commented `import site` are left as they are. */
  lemma PthLinesFixed(r: seq<string>)
    requires forall k :: 0 <= k < |r| ==> Trim(r[k]) != CommentedImportSite
    requires HasSite(r) && HasImportSite(r)
    ensures PthLines(r) == r
  {
    var u := seq(|r|, k requires 0 <= k < |r| => Uncomment(r[k]));
    assert u == r;
  }

  lemma RewriteLeavesNoComment(lines: seq<string>)
    ensures var r := PthLines(lines);
      forall k :: 0 <= k < |r| ==> Trim(r[k]) != CommentedImportSite
  {
    var r := PthLines(lines);
    ImportSiteTrimmed();
    SitePackagesTrimmed();
    forall k | 0 <= k < |r| ensures Trim(r[k]) != CommentedImportSite {
      if k < |lines| && Trim(lines[k]) != CommentedImportSite {
        assert r[k] == lines[k];
      }
    }
  }

  lemma RewriteHasSite(lines: seq<string>)
    ensures HasSite(PthLines(lines))
  {
    var r := PthLines(lines);
    SitePackagesTrimmed();
    if HasSite(lines) {
      var k :| 0 <= k < |lines| && Trim(lines[k]) == SitePackagesLine;
      assert r[k] == lines[k];
    } else {
      assert Trim(r[|lines|]) == SitePackagesLine;
    }
  }

  lemma RewriteHasImportSite(lines: seq<string>)
    ensures HasImportSite(PthLines(lines))
  {
    var r := PthLines(lines);
    ImportSiteTrimmed();
    if HasImportSite(lines) {
      var k :| 0 <= k < |lines| && (Trim(lines[k]) == CommentedImportSite || Trim(lines[k]) == ImportSiteLine);
      assert Trim(r[k]) == ImportSiteLine;
    } else {
      assert Trim(r[|r| - 1]) == ImportSiteLine;
    }
  }

  /** Rewriting rewritten lines changes nothing: both entries are present and
      no commented `import site` is left. */
  lemma PthLinesIdempotent(lines: seq<string>)
    ensures PthLines(PthLines(lines)) == PthLines(lines)
  {
    RewriteLeavesNoComment(lines);
    RewriteHasSite(lines);
    RewriteHasImportSite(lines);
    PthLinesFixed(PthLines(lines));
  }

  /** The lines the rewrite produces are plain when the lines read are. */
  lemma PthLinesPlain(lines: seq<string>)
    requires forall k :: 0 <= k < |lines| ==> PlainLine(lines[k])
    ensures forall k :: 0 <= k < |PthLines(lines)| ==> PlainLine(PthLines(lines)[k])
  {
    assert PlainLine(ImportSiteLine) && PlainLine(SitePackagesLine);
  }

  /** The rewrite is idempotent on files none of whose lines ends in a bare
      carriage return. */
  lemma PthRewriteIdempotent(contents: string)
    requires forall k :: 0 <= k < |Lines(contents)| ==> StripCr(Lines(contents)[k]) == Lines(contents)[k]
    ensures PthRewrite(PthRewrite(contents)) == PthRewrite(contents)
  {
    var ls := Lines(contents);
    PthLinesPlain(ls);
    LinesOfTerminatedJoin(PthLines(ls));
    PthLinesIdempotent(ls);
  }

  /** The first rewrite of "x\r": the line is kept with its carriage return
      and both entries are appended. */
  lemma RewriteXCrOnce()
    ensures PthLines(Lines("x\r")) == ["x\r", SitePackagesLine, ImportSiteLine]
  {
    LinesSingle("x\r");
    assert Trim("x\r") == "x" by {
      assert IsSpace(Rust, '\r') && !IsSpace(Rust, 'x');
      assert TrimStartIn(Rust, "x\r") == "x\r";
      assert "x\r"[..1] == "x";
    }
    assert !HasSite(["x\r"]) && !HasImportSite(["x\r"]);
  }

  /** Whatever the second rewrite appends, it starts with the first line read
      followed by '\n'. */
  lemma RewriteStartsWith(ls: seq<string>, line: string)
    requires ls != [] && ls[0] == line
    ensures line + "\n" <= Join(ls, "\n") + "\n"
  {
    if |ls| > 1 {
      assert Join(ls, "\n") + "\n" == line + "\n" + (Join(ls[1..], "\n") + "\n");
    }
  }

  lemma JoinThreeTerminated(a: string, b: string, c: string)
    ensures Join([a, b, c], "\n") + "\n" == a + "\n" + (b + "\n" + c + "\n")
  {
    assert [a, b, c][1..] == [b, c];
    assert [b, c][1..] == [c];
    assert Join([b, c], "\n") == b + "\n" + c;
    assert Join([a, b, c], "\n") == a + "\n" + (b + "\n" + c);
  }

  /** The first rewrite of "x\r" is that line, '\n', then both entries. */
  lemma RewriteXCrText()
    ensures PthRewrite("x\r") == "x\r" + "\n" + (SitePackagesLine + "\n" + ImportSiteLine + "\n")
  {
    RewriteXCrOnce();
    JoinThreeTerminated("x\r", SitePackagesLine, ImportSiteLine);
  }

  /** Reading the first rewrite back, its first line has lost the '\r'. */
  lemma RewriteXCrReadBack()
    ensures Lines(PthRewrite("x\r")) != [] && Lines(PthRewrite("x\r"))[0] == "x"
  {
    RewriteXCrText();
    var rest := SitePackagesLine + "\n" + ImportSiteLine + "\n";
    assert '\n' !in "x\r";
    LinesCons("x\r", rest);
    assert StripCr("x\r") == "x";
  }

  /** A first line that is not a commented `import site` is written first. */
  lemma PthLinesKeepsHead(read: seq<string>)
    requires read != [] && Trim(read[0]) != CommentedImportSite
    ensures PthLines(read)[0] == read[0]
  {
  }

  /** A last line ending in a bare carriage return is written back followed by
      '\n', and the next run reads that "\r\n" as a line break: the second
      rewrite differs from the first. */
  lemma PthRewriteNotIdempotent()
    ensures PthRewrite(PthRewrite("x\r")) != PthRewrite("x\r")
  {
    RewriteXCrText();
    var once := PthRewrite("x\r");
    assert once[1] == '\r';
    RewriteXCrReadBack();
    var read := Lines(once);
    ImportSiteTrimmed();
    assert Trim("x") == "x" by { TrimFixesUntrimmed(Rust, "x"); }
    PthLinesKeepsHead(read);
    RewriteStartsWith(PthLines(read), "x");
    assert PthRewrite(once)[1] == '\n';
  }

  // ---------------------------------------------------------------- corrected rewrite

  lemma {:induction false} TrimEndMatchesPrefix(s: string, pat: string)
    ensures TrimEndMatches(s, pat) <= s
    decreases |s|
  {
    if pat != [] && EndsWith(s, pat) {
      TrimEndMatchesPrefix(s[..|s| - |pat|], pat);
    }
  }

  /** Each line read with its trailing carriage returns removed. */
  function CleanLine(line: string): (r: string)
    ensures '\n' !in line ==> PlainLine(r)
  {
    var r := TrimEndMatches(line, "\r");
    TrimEndMatchesPrefix(line, "\r");
    assert r != [] ==> r[|r| - 1..] != "\r";
    r
  }

  /** The rewrite with carriage returns dropped from the ends of the lines read,
      so that what is written reads back as the same lines. */
  function PthRewriteClean(contents: string): string {
    var ls := Lines(contents);
    Join(PthLines(seq(|ls|, k requires 0 <= k < |ls| => CleanLine(ls[k]))), "\n") + "\n"
  }

  /** The cleaned rewrite is idempotent on every file. */
  lemma PthRewriteCleanIdempotent(contents: string)
    ensures PthRewriteClean(PthRewriteClean(contents)) == PthRewriteClean(contents)
  {
    var ls := Lines(contents);
    var cleaned := seq(|ls|, k requires 0 <= k < |ls| => CleanLine(ls[k]));
    var out := PthLines(cleaned);
    PthLinesPlain(cleaned);
    LinesOfTerminatedJoin(out);
    var again := Lines(PthRewriteClean(contents));
    assert again == out;
    forall k | 0 <= k < |out| ensures CleanLine(out[k]) == out[k] {
      assert PlainLine(out[k]);
    }
    assert seq(|again|, k requires 0 <= k < |again| => CleanLine(again[k])) == out;
    PthLinesIdempotent(cleaned);
  }
}
