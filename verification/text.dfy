/**
 * String helpers with the exact semantics of the Rust and Python standard
 * library calls the system uses: `trim`/`strip`, `lines`, `split_whitespace`,
 * `contains`, ASCII case folding, UTF-8 byte length (`str::len`) and decimal
 * rendering. A `string` is a sequence of Unicode scalar values.
 */
module Text {
  import opened Base

  /** Whose notion of whitespace a trim uses. */
  datatype Flavor = Rust | Python

  /** Rust `char::is_whitespace` is the Unicode White_Space property; Python's
      `str.isspace` also counts the separators U+001C..U+001F. */
  predicate IsSpace(f: Flavor, c: char) {
    || ('\t' <= c <= '\r') || c == ' ' || c == '\U{85}' || c == '\U{A0}' || c == '\U{1680}'
    || ('\U{2000}' <= c <= '\U{200A}') || c == '\U{2028}' || c == '\U{2029}'
    || c == '\U{202F}' || c == '\U{205F}' || c == '\U{3000}'
    || (f == Python && '\U{1C}' <= c <= '\U{1F}')
  }

  function TrimStartIn(f: Flavor, s: string): (r: string)
    ensures |r| <= |s|
    ensures r == [] || !IsSpace(f, r[0])
  {
    if s != [] && IsSpace(f, s[0]) then TrimStartIn(f, s[1..]) else s
  }

  function TrimEndIn(f: Flavor, s: string): (r: string)
    ensures |r| <= |s|
    ensures r != [] ==> r[0] == s[0]
    ensures r == [] || !IsSpace(f, r[|r| - 1])
  {
    if s != [] && IsSpace(f, s[|s| - 1]) then TrimEndIn(f, s[..|s| - 1]) else s
  }

  /** Both ends trimmed: no whitespace is left at either edge. */
  function TrimIn(f: Flavor, s: string): (r: string)
    ensures |r| <= |s|
    ensures r == [] || (!IsSpace(f, r[0]) && !IsSpace(f, r[|r| - 1]))
  {
    TrimEndIn(f, TrimStartIn(f, s))
  }

  /** Rust `str::trim`. */
  function Trim(s: string): string { TrimIn(Rust, s) }

  /** Python `str.strip()` with no argument. */
  function Strip(s: string): string { TrimIn(Python, s) }

  /** Rust `s.trim().is_empty()`. */
  predicate IsBlank(s: string) { Trim(s) == [] }

  lemma TrimFixesUntrimmed(f: Flavor, t: string)
    requires t == [] || (!IsSpace(f, t[0]) && !IsSpace(f, t[|t| - 1]))
    ensures TrimIn(f, t) == t
  {
  }

  /** Trimming twice is trimming once. */
  lemma TrimIdempotent(f: Flavor, s: string)
    ensures TrimIn(f, TrimIn(f, s)) == TrimIn(f, s)
  {
    TrimFixesUntrimmed(f, TrimIn(f, s));
  }

  // ---------------------------------------------------------------- UTF-8

  /** Bytes UTF-8 needs for one scalar value. */
  function Utf8Width(c: char): (w: nat)
    ensures 1 <= w <= 4
    ensures w == 1 <==> c as int < 0x80
  {
    if c as int < 0x80 then 1 else if c as int < 0x800 then 2 else if c as int < 0x10000 then 3 else 4
  }

  /** Rust `str::len`: the UTF-8 byte length. */
  function Utf8Len(s: string): (n: nat)
    ensures n >= |s|
  {
    if s == [] then 0 else Utf8Width(s[0]) + Utf8Len(s[1..])
  }

  predicate IsAscii(s: string) {
    forall i :: 0 <= i < |s| ==> s[i] as int < 0x80
  }

  lemma {:induction false} Utf8LenAscii(s: string)
    requires IsAscii(s)
    ensures Utf8Len(s) == |s|
  {
    if s != [] {
      Utf8LenAscii(s[1..]);
    }
  }

  // ---------------------------------------------------------------- lines

  /** Position of the first `c` in `s`, or `|s|` when there is none. */
  function IndexOfChar(s: string, c: char): (i: nat)
    ensures i <= |s|
    ensures i < |s| ==> s[i] == c
    ensures forall j :: 0 <= j < i ==> s[j] != c
  {
    if s == [] then 0 else if s[0] == c then 0 else 1 + IndexOfChar(s[1..], c)
  }

  function StripCr(s: string): string {
    if s != [] && s[|s| - 1] == '\r' then s[..|s| - 1] else s
  }

  /** Rust `str::lines`: split after each '\n'; a terminated line loses its '\n'
      and then one '\r'; a final line without '\n' is kept as it is; a trailing
      '\n' does not start an empty line. */
  function Lines(s: string): (r: seq<string>)
    ensures forall k :: 0 <= k < |r| ==> '\n' !in r[k]
    decreases |s|
  {
    if s == [] then []
    else
      var i := IndexOfChar(s, '\n');
      if i == |s| then [s]
      else
        assert '\n' !in s[..i] by {
          forall j | 0 <= j < i ensures s[..i][j] != '\n' { }
        }
        [StripCr(s[..i])] + Lines(s[i + 1..])
  }

  /** Rust `slice.join(sep)`. */
  function Join(parts: seq<string>, sep: string): string {
    if parts == [] then ""
    else if |parts| == 1 then parts[0]
    else parts[0] + sep + Join(parts[1..], sep)
  }

  lemma LinesCons(a: string, rest: string)
    requires '\n' !in a
    ensures Lines(a + "\n" + rest) == [StripCr(a)] + Lines(rest)
  {
    var s := a + "\n" + rest;
    assert s[|a|] == '\n';
    assert forall j :: 0 <= j < |a| ==> s[j] == a[j];
    assert IndexOfChar(s, '\n') == |a|;
    assert s[..|a|] == a;
    assert s[|a| + 1..] == rest;
  }

  lemma SeqAssoc5(a: string, b: string, c: string, d: string, e: string)
    ensures a + b + c + d + e == a + b + (c + d + e)
  {
  }

  lemma SeqAssoc3<T>(a: seq<T>, b: seq<T>, c: seq<T>)
    ensures a + (b + c) == a + b + c
  {
  }

  /** A non-empty text without '\n' is a single line. */
  lemma LinesSingle(t: string)
    requires t != [] && '\n' !in t
    ensures Lines(t) == [t]
  {
    assert IndexOfChar(t, '\n') == |t|;
  }

  /** A line `lines` gives back unchanged: no '\n' and no trailing '\r'. */
  predicate PlainLine(l: string) {
    '\n' !in l && StripCr(l) == l
  }

  /** `lines` splits "join with '\n', then '\n', then more" back into the joined
      lines followed by the lines of the rest. */
  lemma {:induction false} LinesOfJoinThen(ls: seq<string>, rest: string)
    requires ls != []
    requires forall k :: 0 <= k < |ls| ==> PlainLine(ls[k])
    ensures Lines(Join(ls, "\n") + "\n" + rest) == ls + Lines(rest)
  {
    var head := ls[0];
    assert PlainLine(head);
    if |ls| == 1 {
      assert Join(ls, "\n") == head;
      LinesCons(head, rest);
      assert ls == [head];
    } else {
      var tail := ls[1..];
      assert forall k :: 0 <= k < |tail| ==> PlainLine(tail[k]) by {
        forall k | 0 <= k < |tail| ensures PlainLine(tail[k]) {
          assert tail[k] == ls[k + 1];
        }
      }
      LinesOfJoinThen(tail, rest);
      var j := Join(tail, "\n");
      var after := j + "\n" + rest;
      assert Join(ls, "\n") == head + "\n" + j;
      SeqAssoc5(head, "\n", j, "\n", rest);
      LinesCons(head, after);
      assert ls == [head] + tail;
    }
  }

  /** `lines` undoes "join with '\n' and terminate with '\n'". */
  lemma LinesOfTerminatedJoin(ls: seq<string>)
    requires ls != []
    requires forall k :: 0 <= k < |ls| ==> PlainLine(ls[k])
    ensures Lines(Join(ls, "\n") + "\n") == ls
  {
    LinesOfJoinThen(ls, "");
    assert Join(ls, "\n") + "\n" + "" == Join(ls, "\n") + "\n";
  }

  /** Rust `trim_start_matches(pat)` for a string pattern: every leading copy of
      `pat` is removed. */
  function TrimStartMatches(s: string, pat: string): (r: string)
    ensures |r| <= |s|
    ensures pat != [] ==> !(pat <= r)
  {
    if pat != [] && pat <= s then TrimStartMatches(s[|pat|..], pat) else s
  }

  predicate EndsWith(s: string, pat: string) {
    |pat| <= |s| && s[|s| - |pat|..] == pat
  }

  /** Rust `trim_end_matches(pat)`: every trailing copy of `pat` is removed. */
  function TrimEndMatches(s: string, pat: string): (r: string)
    ensures |r| <= |s|
    ensures pat != [] ==> !EndsWith(r, pat)
  {
    if pat != [] && EndsWith(s, pat) then TrimEndMatches(s[..|s| - |pat|], pat) else s
  }

  // ---------------------------------------------------------------- tokens

  /** Length of the leading run of non-whitespace characters. */
  function SpanNonSpace(s: string): (k: nat)
    ensures k <= |s|
    ensures forall j :: 0 <= j < k ==> !IsSpace(Rust, s[j])
    ensures k < |s| ==> IsSpace(Rust, s[k])
  {
    if s == [] || IsSpace(Rust, s[0]) then 0 else 1 + SpanNonSpace(s[1..])
  }

  /** Rust `str::split_whitespace`: the maximal non-empty runs of non-whitespace. */
  function SplitWhitespace(s: string): (r: seq<string>)
    ensures forall k :: 0 <= k < |r| ==> r[k] != []
    decreases |s|
  {
    var t := TrimStartIn(Rust, s);
    if t == [] then []
    else
      var k := SpanNonSpace(t);
      [t[..k]] + SplitWhitespace(t[k..])
  }

  // ---------------------------------------------------------------- search

  /** Rust `str::contains` with a string pattern (the empty pattern is everywhere). */
  predicate Contains(s: string, sub: string) {
    sub <= s || (s != [] && Contains(s[1..], sub))
  }

  /** A string contains each of its infixes. */
  lemma {:induction false} ContainsInfix(a: string, b: string, c: string)
    ensures Contains(a + b + c, b)
  {
    if a == [] {
      assert a + b + c == b + c;
      assert b <= b + c;
    } else {
      ContainsInfix(a[1..], b, c);
      assert (a + b + c)[1..] == a[1..] + b + c;
    }
  }

  /** Rust `str::find`, counted in characters: the first position of `sub` in `s`. */
  function Find(s: string, sub: string): (r: Option<nat>)
    ensures r.Some? ==> r.value + |sub| <= |s| && s[r.value..r.value + |sub|] == sub
    ensures r.Some? ==> forall j :: 0 <= j < r.value ==> !(sub <= s[j..])
    ensures r.None? ==> forall j :: 0 <= j <= |s| ==> !(sub <= s[j..])
  {
    if sub <= s then Some(0)
    else if s == [] then None
    else
      match Find(s[1..], sub)
      case None =>
        assert forall j :: 1 <= j <= |s| ==> s[j..] == s[1..][j - 1..];
        None
      case Some(i) =>
        assert forall j :: 1 <= j <= i + 1 ==> s[j..] == s[1..][j - 1..];
        Some(i + 1)
  }

  // ---------------------------------------------------------------- ASCII case

  function AsciiLowerChar(c: char): char {
    if 'A' <= c <= 'Z' then (c as int + 32) as char else c
  }

  /** Rust `to_ascii_lowercase`. */
  function AsciiLower(s: string): (r: string)
    ensures |r| == |s|
    ensures forall i :: 0 <= i < |s| ==> r[i] == AsciiLowerChar(s[i])
  {
    if s == [] then [] else [AsciiLowerChar(s[0])] + AsciiLower(s[1..])
  }

  /** Lowering leaves a string without upper-case ASCII letters as it is. */
  lemma LowerKeepsNonUpper(t: string)
    requires forall i :: 0 <= i < |t| ==> !('A' <= t[i] <= 'Z')
    ensures AsciiLower(t) == t
  {
  }

  /** Rust `eq_ignore_ascii_case`: equal lengths, and the characters agree
      pairwise once ASCII letters are lowered. */
  predicate EqIgnoreAsciiCase(a: string, b: string) {
    |a| == |b| && (a == [] || (AsciiLowerChar(a[0]) == AsciiLowerChar(b[0]) && EqIgnoreAsciiCase(a[1..], b[1..])))
  }

  lemma {:induction false} EqIgnoreAsciiCaseRefl(a: string)
    ensures EqIgnoreAsciiCase(a, a)
  {
    if a != [] {
      EqIgnoreAsciiCaseRefl(a[1..]);
    }
  }

  /** Comparing ignoring ASCII case is comparing the lowered strings. */
  lemma {:induction false} EqIgnoreAsciiCaseLower(a: string, b: string)
    ensures EqIgnoreAsciiCase(a, b) <==> AsciiLower(a) == AsciiLower(b)
  {
    if |a| == |b| && a != [] {
      EqIgnoreAsciiCaseLower(a[1..], b[1..]);
      assert AsciiLower(a) == [AsciiLowerChar(a[0])] + AsciiLower(a[1..]);
      assert AsciiLower(b) == [AsciiLowerChar(b[0])] + AsciiLower(b[1..]);
    }
  }

  /** Lowering twice is lowering once. */
  lemma AsciiLowerIdempotent(s: string)
    ensures AsciiLower(AsciiLower(s)) == AsciiLower(s)
  {
  }

  lemma {:induction false} Utf8LenLower(s: string)
    ensures Utf8Len(AsciiLower(s)) == Utf8Len(s)
  {
    if s != [] {
      Utf8LenLower(s[1..]);
      assert AsciiLower(s)[1..] == AsciiLower(s[1..]);
    }
  }

  /** Lowering leaves whitespace alone and makes none. */
  lemma LowerKeepsSpace(f: Flavor, c: char)
    ensures IsSpace(f, AsciiLowerChar(c)) == IsSpace(f, c)
  {
  }

  lemma {:induction false} TrimStartLower(s: string)
    ensures TrimStartIn(Rust, AsciiLower(s)) == AsciiLower(TrimStartIn(Rust, s))
  {
    if s != [] {
      var l := AsciiLower(s);
      LowerKeepsSpace(Rust, s[0]);
      assert l[0] == AsciiLowerChar(s[0]);
      TrimStartLower(s[1..]);
      assert l[1..] == AsciiLower(s[1..]);
    }
  }

  lemma {:induction false} TrimEndLower(s: string)
    ensures TrimEndIn(Rust, AsciiLower(s)) == AsciiLower(TrimEndIn(Rust, s))
  {
    if s != [] {
      var n := |s|;
      var l := AsciiLower(s);
      LowerKeepsSpace(Rust, s[n - 1]);
      assert l[n - 1] == AsciiLowerChar(s[n - 1]);
      TrimEndLower(s[..n - 1]);
      assert l[..n - 1] == AsciiLower(s[..n - 1]);
    }
  }

  /** Trimming and ASCII lowering commute. */
  lemma TrimLower(s: string)
    ensures Trim(AsciiLower(s)) == AsciiLower(Trim(s))
  {
    TrimStartLower(s);
    TrimEndLower(TrimStartIn(Rust, s));
  }

  // ---------------------------------------------------------------- numbers

  function DigitChar(d: nat): (c: char)
    requires d < 10
    ensures '0' <= c <= '9' && c as int - '0' as int == d
  {
    ('0' as int + d) as char
  }

  /** Decimal rendering, as `to_string` / `format!("{}")` / Python `f"{n}"` write it. */
  function NatToString(n: nat): (r: string)
    ensures r != []
    ensures forall i :: 0 <= i < |r| ==> '0' <= r[i] <= '9'
  {
    if n < 10 then [DigitChar(n)] else NatToString(n / 10) + [DigitChar(n % 10)]
  }

  function IntToString(i: int): (r: string)
    ensures r != []
  {
    if i < 0 then "-" + NatToString(-i) else NatToString(i)
  }
}
