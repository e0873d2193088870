/**
 * The macOS database reader: hexadecimal key text, the key printed by the
 * Frida helper, the key candidates cut from a login blob, the choice of the
 * session and message tables and of their columns, the message cursor, and
 * the recent-chat listing over the session table.
 *
 * Opening SQLCipher databases, running Frida, the keychain and the file
 * system are not modelled: the tables, their columns and the rows a query
 * returns are parameters.
 */
module DbReader {
  import opened Base
  import opened Text
  import opened Types
  import SessionList

  newtype byte = x: int | 0 <= x < 256

  const ErrHexLength: string := "hex 长度非法"
  const ErrHexDigit: string := "hex 非法"
  const ErrNoFridaKey: string := "frida 输出未包含有效密钥"
  const DbKeyMarker: string := "WECHAT_DB_KEY:"
  const RawKeyMarker: string := "RAW KEY CAPTURED:"

  // ---------------------------------------------------------------- hex

  const LowerHexDigits: string := "0123456789abcdef"

  function HexDigit(n: nat): char
    requires n < 16
  {
    LowerHexDigits[n]
  }

  /** `format!("{:02x}", b)`. */
  function HexPair(b: byte): string {
    [HexDigit(b as int / 16), HexDigit(b as int % 16)]
  }

  /** `encode_hex`: two lower-case digits per byte, in order. */
  function Hex(bs: seq<byte>): (s: string)
    ensures |s| == 2 * |bs|
  {
    if bs == [] then [] else Hex(bs[..|bs| - 1]) + HexPair(bs[|bs| - 1])
  }

  /** `char::to_digit(16)`: either case is accepted. */
  function DigitValue(c: char): (d: Option<nat>)
    ensures d.Some? ==> d.value < 16
  {
    if '0' <= c <= '9' then Some(c as int - '0' as int)
    else if 'a' <= c <= 'f' then Some(c as int - 'a' as int + 10)
    else if 'A' <= c <= 'F' then Some(c as int - 'A' as int + 10)
    else None
  }

  predicate IsHexDigit(c: char) {
    DigitValue(c).Some?
  }

  predicate AllHex(s: string) {
    forall i :: 0 <= i < |s| ==> IsHexDigit(s[i])
  }

  function PairValue(hi: char, lo: char): byte
    requires IsHexDigit(hi) && IsHexDigit(lo)
  {
    (DigitValue(hi).value * 16 + DigitValue(lo).value) as byte
  }

  /** The bytes an even run of hex digits spells, two digits per byte. */
  function Unhex(s: string): (bs: seq<byte>)
    requires |s| % 2 == 0 && AllHex(s)
    ensures |bs| == |s| / 2
  {
    if s == [] then [] else Unhex(s[..|s| - 2]) + [PairValue(s[|s| - 2], s[|s| - 1])]
  }

  lemma HexDigitsAreAscii(s: string)
    requires AllHex(s)
    ensures Utf8Len(s) == |s|
  {
    assert IsAscii(s);
    Utf8LenAscii(s);
  }

  /** `decode_hex`: trim, then an odd byte length is one error and a byte that
      is not a hex digit another; a character outside ASCII is always such a
      byte. */
  function DecodedHex(input: string): Result<seq<byte>, string> {
    var t := Trim(input);
    if Utf8Len(t) % 2 != 0 then Err(ErrHexLength)
    else if !AllHex(t) then Err(ErrHexDigit)
    else
      HexDigitsAreAscii(t);
      Ok(Unhex(t))
  }

  method EncodeHex(bytes: seq<byte>) returns (out: string)
    ensures out == Hex(bytes)
  {
    out := [];
    for i := 0 to |bytes|
      invariant out == Hex(bytes[..i])
    {
      assert bytes[..i + 1][..i] == bytes[..i];
      out := out + HexPair(bytes[i]);
    }
    assert bytes[..|bytes|] == bytes;
  }

  /** An odd number of characters in an even number of bytes means one of them
      is not ASCII, hence not a hex digit. */
  lemma OddCharsNotHex(t: string)
    requires Utf8Len(t) % 2 == 0 && |t| % 2 == 1
    ensures !AllHex(t)
  {
    if AllHex(t) {
      HexDigitsAreAscii(t);
    }
  }

  method DecodeHex(input: string) returns (r: Result<seq<byte>, string>)
    ensures r == DecodedHex(input)
  {
    var t := Trim(input);
    if Utf8Len(t) % 2 != 0 {
      return Err(ErrHexLength);
    }
    if |t| % 2 != 0 {
      OddCharsNotHex(t);
      return Err(ErrHexDigit);
    }
    var out: seq<byte> := [];
    var i := 0;
    while i < |t|
      invariant 0 <= i <= |t| && i % 2 == 0
      invariant AllHex(t[..i]) && out == Unhex(t[..i])
    {
      var hi := DigitValue(t[i]);
      var lo := DigitValue(t[i + 1]);
      if hi.None? || lo.None? {
        assert !IsHexDigit(t[i]) || !IsHexDigit(t[i + 1]);
        return Err(ErrHexDigit);
      }
      var pair := t[i..i + 2];
      assert t[..i + 2] == t[..i] + pair;
      UnhexAppendPair(t[..i], pair);
      out := out + [PairValue(t[i], t[i + 1])];
      i := i + 2;
    }
    assert t[..i] == t;
    r := Ok(out);
  }

  lemma DigitOfHexDigit(n: nat)
    requires n < 16
    ensures IsHexDigit(HexDigit(n)) && DigitValue(HexDigit(n)) == Some(n)
    ensures 'a' <= HexDigit(n) <= 'f' || '0' <= HexDigit(n) <= '9'
  {
  }

  lemma {:induction false} HexIsLowerHex(bs: seq<byte>)
    ensures forall i :: 0 <= i < |Hex(bs)| ==> ('a' <= Hex(bs)[i] <= 'f' || '0' <= Hex(bs)[i] <= '9')
  {
    if bs != [] {
      var b := bs[|bs| - 1];
      HexIsLowerHex(bs[..|bs| - 1]);
      DigitOfHexDigit(b as int / 16);
      DigitOfHexDigit(b as int % 16);
    }
  }

  lemma PairOfHexPair(b: byte)
    ensures IsHexDigit(HexPair(b)[0]) && IsHexDigit(HexPair(b)[1])
    ensures PairValue(HexPair(b)[0], HexPair(b)[1]) == b
  {
    var hi := b as int / 16;
    var lo := b as int % 16;
    DigitOfHexDigit(hi);
    DigitOfHexDigit(lo);
    assert hi * 16 + lo == b as int;
  }

  /** Appending two hex digits keeps a string all hex. */
  lemma AllHexAppendPair(a: string, p: string)
    requires AllHex(a) && |p| == 2 && IsHexDigit(p[0]) && IsHexDigit(p[1])
    ensures AllHex(a + p)
  {
    var s := a + p;
    forall i | 0 <= i < |s| ensures IsHexDigit(s[i]) {
      if i < |a| {
        assert s[i] == a[i];
      } else {
        assert s[i] == p[i - |a|];
      }
    }
  }

  /** Unhexing an even hex string followed by one pair adds that pair's byte. */
  lemma UnhexAppendPair(a: string, p: string)
    requires |a| % 2 == 0 && AllHex(a) && |p| == 2 && IsHexDigit(p[0]) && IsHexDigit(p[1])
    ensures AllHex(a + p) && Unhex(a + p) == Unhex(a) + [PairValue(p[0], p[1])]
  {
    AllHexAppendPair(a, p);
    var s := a + p;
    assert s[..|s| - 2] == a;
    assert s[|s| - 2] == p[0] && s[|s| - 1] == p[1];
  }

  lemma {:induction false} UnhexHex(bs: seq<byte>)
    ensures AllHex(Hex(bs)) && Unhex(Hex(bs)) == bs
  {
    if bs != [] {
      var init := bs[..|bs| - 1];
      var b := bs[|bs| - 1];
      UnhexHex(init);
      PairOfHexPair(b);
      assert Hex(bs) == Hex(init) + HexPair(b);
      UnhexAppendPair(Hex(init), HexPair(b));
      assert bs == init + [b];
    }
  }

  lemma HexIsTrimmed(bs: seq<byte>)
    ensures Trim(Hex(bs)) == Hex(bs)
  {
    var s := Hex(bs);
    HexIsLowerHex(bs);
    if s != [] {
      var first, last := s[0], s[|s| - 1];
      assert 'a' <= first <= 'f' || '0' <= first <= '9';
      assert 'a' <= last <= 'f' || '0' <= last <= '9';
      assert !IsSpace(Rust, first) && !IsSpace(Rust, last);
    }
    TrimFixesUntrimmed(Rust, s);
  }

  /** `decode_hex` reads back what `encode_hex` writes. */
  lemma HexRoundTrip(bs: seq<byte>)
    ensures Trim(Hex(bs)) == Hex(bs)
    ensures DecodedHex(Hex(bs)) == Ok(bs)
  {
    var s := Hex(bs);
    HexIsTrimmed(bs);
    UnhexHex(bs);
    HexDigitsAreAscii(s);
    assert Utf8Len(s) % 2 == 0;
  }

  lemma LowerHexChar(c: char)
    ensures IsHexDigit(AsciiLowerChar(c)) == IsHexDigit(c)
    ensures DigitValue(AsciiLowerChar(c)) == DigitValue(c)
  {
  }

  lemma {:induction false} UnhexLower(t: string)
    requires |t| % 2 == 0 && AllHex(t)
    ensures AllHex(AsciiLower(t)) && Unhex(AsciiLower(t)) == Unhex(t)
  {
    var l := AsciiLower(t);
    forall i | 0 <= i < |t|
      ensures IsHexDigit(l[i]) && DigitValue(l[i]) == DigitValue(t[i])
    {
      LowerHexChar(t[i]);
    }
    if t != [] {
      var n := |t|;
      var init := t[..n - 2];
      assert AllHex(init) by {
        forall i | 0 <= i < |init| ensures IsHexDigit(init[i]) {
          assert init[i] == t[i];
        }
      }
      UnhexLower(init);
      assert l[..n - 2] == AsciiLower(init);
      assert PairValue(l[n - 2], l[n - 1]) == PairValue(t[n - 2], t[n - 1]);
      assert Unhex(l) == Unhex(l[..n - 2]) + [PairValue(l[n - 2], l[n - 1])];
    }
  }

  /** Upper-case and lower-case hex decode alike: lowering the ASCII letters of
      any input changes neither the outcome nor the bytes. */
  lemma DecodeIgnoresCase(input: string)
    ensures DecodedHex(AsciiLower(input)) == DecodedHex(input)
  {
    var t := Trim(input);
    var lt := AsciiLower(t);
    assert Trim(AsciiLower(input)) == lt by {
      TrimLower(input);
    }
    Utf8LenLower(t);
    if Utf8Len(t) % 2 == 0 {
      if AllHex(t) {
        HexDigitsAreAscii(t);
        UnhexLower(t);
      } else {
        var i :| 0 <= i < |t| && !IsHexDigit(t[i]);
        LowerHexChar(t[i]);
        assert !IsHexDigit(lt[i]);
      }
    }
  }

  // ---------------------------------------------------------------- Frida output

  /** What one line of the output says: nothing when it lacks the marker or
      holds only blanks after it, otherwise the decoding of what follows the
      marker, trimmed. */
  function LineKey(line: string, marker: string): Option<Result<seq<byte>, string>> {
    var pos := Find(line, marker);
    if pos.None? then None
    else
      var hex := Trim(line[pos.value + |marker|..]);
      if hex == [] then None else Some(DecodedHex(hex))
  }

  /** `extract_key_from_line` over the lines still to read: the first line
      that says something decides, and a decoding error there ends the search. */
  function KeyInLines(lines: seq<string>, marker: string): Result<Option<seq<byte>>, string> {
    if lines == [] then Ok(None)
    else
      match LineKey(lines[0], marker)
      case None => KeyInLines(lines[1..], marker)
      case Some(Err(e)) => Err(e)
      case Some(Ok(key)) => Ok(Some(key))
  }

  function KeyFromLine(output: string, marker: string): Result<Option<seq<byte>>, string> {
    KeyInLines(Lines(output), marker)
  }

  /** A hexdump token: two bytes, both ASCII hex digits, which is two hex
      characters. */
  predicate HexToken(t: string) {
    |t| == 2 && IsHexDigit(t[0]) && IsHexDigit(t[1])
  }

  /** The byte of each hexdump token, in order; other tokens are skipped. */
  function HexdumpBytes(tokens: seq<string>): (bs: seq<byte>)
    ensures |bs| <= |tokens|
  {
    if tokens == [] then []
    else
      var t := tokens[|tokens| - 1];
      HexdumpBytes(tokens[..|tokens| - 1]) + (if HexToken(t) then [PairValue(t[0], t[1])] else [])
  }

  method CollectHexdumpBytes(tokens: seq<string>) returns (bytes: seq<byte>)
    ensures bytes == HexdumpBytes(tokens)
  {
    bytes := [];
    for i := 0 to |tokens|
      invariant bytes == HexdumpBytes(tokens[..i])
    {
      assert tokens[..i + 1][..i] == tokens[..i];
      var t := tokens[i];
      if |t| == 2 && IsHexDigit(t[0]) && IsHexDigit(t[1]) {
        bytes := bytes + [PairValue(t[0], t[1])];
      }
    }
    assert tokens[..|tokens|] == tokens;
  }

  /** `extract_key_from_frida_output`: the `WECHAT_DB_KEY:` line, else the `RAW
      KEY CAPTURED:` line, else the first 32 (or, short of that, 16) hexdump
      bytes. */
  function FridaKey(output: string): Result<seq<byte>, string> {
    var first := KeyFromLine(output, DbKeyMarker);
    if first.Err? then Err(first.error)
    else if first.value.Some? then Ok(first.value.value)
    else
      var second := KeyFromLine(output, RawKeyMarker);
      if second.Err? then Err(second.error)
      else if second.value.Some? then Ok(second.value.value)
      else
        var bytes := HexdumpBytes(SplitWhitespace(output));
        if |bytes| >= 32 then Ok(bytes[..32])
        else if |bytes| >= 16 then Ok(bytes[..16])
        else Err(ErrNoFridaKey)
  }

  method ExtractKeyFromFridaOutput(output: string) returns (r: Result<seq<byte>, string>)
    ensures r == FridaKey(output)
  {
    var first := KeyFromLine(output, DbKeyMarker);
    if first.Err? {
      return Err(first.error);
    }
    if first.value.Some? {
      return Ok(first.value.value);
    }
    var second := KeyFromLine(output, RawKeyMarker);
    if second.Err? {
      return Err(second.error);
    }
    if second.value.Some? {
      return Ok(second.value.value);
    }
    var bytes := CollectHexdumpBytes(SplitWhitespace(output));
    if |bytes| >= 32 {
      return Ok(bytes[..32]);
    }
    if |bytes| >= 16 {
      return Ok(bytes[..16]);
    }
    return Err(ErrNoFridaKey);
  }

  /** Without a usable marker line the key is a hexdump prefix: 32 bytes when
      there are that many, else 16 when there are that many, else an error. */
  lemma HexdumpFallback(output: string)
    requires KeyFromLine(output, DbKeyMarker) == Ok(None) && KeyFromLine(output, RawKeyMarker) == Ok(None)
    ensures var bytes := HexdumpBytes(SplitWhitespace(output));
      && (FridaKey(output).Ok? <==> |bytes| >= 16)
      && (FridaKey(output).Err? ==> FridaKey(output).error == ErrNoFridaKey)
      && (FridaKey(output).Ok? ==>
            var key := FridaKey(output).value;
            key <= bytes && (|key| == 32 <==> |bytes| >= 32) && (|key| == 16 <==> |bytes| < 32))
  {
  }

  /** A line holding the marker, a space and a key in hex gives that key; the
      helper's own output format reads back. */
  lemma MarkerLineGivesKey(key: seq<byte>)
    requires key != []
    ensures FridaKey(DbKeyMarker + " " + Hex(key)) == Ok(key)
  {
    var line := DbKeyMarker + " " + Hex(key);
    MarkerLineUnbroken(key);
    LinesSingle(line);
    MarkerLineKey(key);
  }

  lemma MarkerLineUnbroken(key: seq<byte>)
    ensures '\n' !in DbKeyMarker + " " + Hex(key)
  {
    var hex := Hex(key);
    var line := DbKeyMarker + " " + hex;
    HexIsLowerHex(key);
    forall j | 0 <= j < |line|
      ensures line[j] != '\n'
    {
      if j >= |DbKeyMarker| + 1 {
        assert line[j] == hex[j - |DbKeyMarker| - 1];
      }
    }
  }

  lemma MarkerLineKey(key: seq<byte>)
    requires key != []
    ensures KeyInLines([DbKeyMarker + " " + Hex(key)], DbKeyMarker) == Ok(Some(key))
  {
    var hex := Hex(key);
    var line := DbKeyMarker + " " + hex;
    HexRoundTrip(key);
    MarkerFound(hex);
    DropPrefix(DbKeyMarker, " ", hex);
    TrimAfterSpace(hex);
    LineKeyAtStart(line, DbKeyMarker, hex, key);
    FirstLineDecides([line], DbKeyMarker);
  }

  /** The first line that says something decides the extraction. */
  lemma FirstLineDecides(lines: seq<string>, marker: string)
    requires lines != [] && LineKey(lines[0], marker).Some?
    ensures KeyInLines(lines, marker) ==
      match LineKey(lines[0], marker).value
      case Err(e) => Err(e)
      case Ok(key) => Ok(Some(key))
  {
  }

  /** A line whose marker is followed by a decodable hex string yields its key. */
  lemma LineKeyAtStart(line: string, marker: string, hex: string, key: seq<byte>)
    requires Find(line, marker) == Some(0) && |marker| <= |line|
    requires Trim(line[|marker|..]) == hex && hex != []
    requires DecodedHex(hex) == Ok(key)
    ensures LineKey(line, marker) == Some(Ok(key))
  {
    var pos := Find(line, marker);
    assert line[pos.value + |marker|..] == line[|marker|..];
  }

  lemma DropPrefix(p: string, c: string, q: string)
    ensures (p + c + q)[|p|..] == c + q
  {
    assert p + c + q == p + (c + q);
  }

  lemma MarkerFound(hex: string)
    ensures Find(DbKeyMarker + " " + hex, DbKeyMarker) == Some(0)
  {
    assert DbKeyMarker <= DbKeyMarker + " " + hex;
  }

  lemma TrimAfterSpace(t: string)
    requires Trim(t) == t
    ensures Trim(" " + t) == t
  {
    assert (" " + t)[1..] == t;
    assert TrimStartIn(Rust, " " + t) == TrimStartIn(Rust, t);
  }

  /** A marker line whose hex does not decode ends the extraction with that
      error, whatever the lines after it hold. */
  lemma MarkerErrorIsFinal(line: string, rest: string)
    requires PlainLine(line)
    requires LineKey(line, DbKeyMarker).Some? && LineKey(line, DbKeyMarker).value.Err?
    ensures FridaKey(line + "\n" + rest) == Err(LineKey(line, DbKeyMarker).value.error)
  {
    var lines := Lines(line + "\n" + rest);
    assert lines != [] && lines[0] == line by {
      LinesOfJoinThen([line], rest);
      assert Join([line], "\n") == line;
    }
    FirstLineDecides(lines, DbKeyMarker);
  }

  // ---------------------------------------------------------------- key candidates

  function ByteSet(data: seq<byte>): set<byte> {
    set b | b in data
  }

  /** `unique_bytes`. */
  method UniqueBytes(data: seq<byte>) returns (n: nat)
    ensures n == |ByteSet(data)|
  {
    var seen: set<byte> := {};
    for i := 0 to |data|
      invariant seen == ByteSet(data[..i])
    {
      assert data[..i + 1] == data[..i] + [data[i]];
      seen := seen + {data[i]};
    }
    assert data[..|data|] == data;
    n := |seen|;
  }

  predicate Qualifies(blob: seq<byte>, size: nat, threshold: nat, start: nat)
    requires start + size <= |blob|
  {
    |ByteSet(blob[start..start + size])| >= threshold
  }

  /** The qualifying window starts below `n`, ascending. */
  function Starts(blob: seq<byte>, size: nat, threshold: nat, n: nat): (st: seq<nat>)
    requires n + size <= |blob| + 1
    ensures forall k :: 0 <= k < |st| ==> st[k] < n
  {
    if n == 0 then []
    else Starts(blob, size, threshold, n - 1) + (if Qualifies(blob, size, threshold, n - 1) then [n - 1] else [])
  }

  /** The windows those starts cut. */
  function WindowsUpTo(blob: seq<byte>, size: nat, threshold: nat, n: nat): seq<seq<byte>>
    requires n + size <= |blob| + 1
  {
    if n == 0 then []
    else
      WindowsUpTo(blob, size, threshold, n - 1)
        + (if Qualifies(blob, size, threshold, n - 1) then [blob[n - 1..n - 1 + size]] else [])
  }

  /** `extract_windows`: every `size`-byte window with at least `threshold`
      distinct bytes, in start order. */
  function Windows(blob: seq<byte>, size: nat, threshold: nat): seq<seq<byte>> {
    if |blob| < size then [] else WindowsUpTo(blob, size, threshold, |blob| - size + 1)
  }

  method ExtractWindows(blob: seq<byte>, size: nat, threshold: nat) returns (out: seq<seq<byte>>)
    ensures out == Windows(blob, size, threshold)
  {
    if |blob| < size {
      return [];
    }
    out := [];
    for start := 0 to |blob| - size + 1
      invariant out == WindowsUpTo(blob, size, threshold, start)
    {
      var window := blob[start..start + size];
      var n := UniqueBytes(window);
      if n < threshold {
        continue;
      }
      out := out + [window];
    }
  }

  /** `extract_key_candidates`: the 32-byte windows with 12 distinct bytes, then
      the 16-byte windows with 6. */
  function KeyCandidates(blob: seq<byte>): seq<seq<byte>> {
    Windows(blob, 32, 12) + Windows(blob, 16, 6)
  }

  method ExtractKeyCandidates(blob: seq<byte>) returns (candidates: seq<seq<byte>>)
    ensures candidates == KeyCandidates(blob)
  {
    var long := ExtractWindows(blob, 32, 12);
    var short := ExtractWindows(blob, 16, 6);
    candidates := long + short;
  }

  lemma {:induction false} StartsSpec(blob: seq<byte>, size: nat, threshold: nat, n: nat)
    requires n + size <= |blob| + 1
    ensures var st := Starts(blob, size, threshold, n);
      && (forall j, k :: 0 <= j < k < |st| ==> st[j] < st[k])
      && (forall s: nat :: s < n ==> (s in st <==> Qualifies(blob, size, threshold, s)))
  {
    if n > 0 {
      StartsSpec(blob, size, threshold, n - 1);
    }
  }

  lemma {:induction false} WindowsUpToStarts(blob: seq<byte>, size: nat, threshold: nat, n: nat)
    requires n + size <= |blob| + 1
    ensures var st := Starts(blob, size, threshold, n);
      var w := WindowsUpTo(blob, size, threshold, n);
      && |w| == |st|
      && (forall k :: 0 <= k < |st| ==> w[k] == blob[st[k]..st[k] + size])
  {
    if n > 0 {
      WindowsUpToStarts(blob, size, threshold, n - 1);
      var st0 := Starts(blob, size, threshold, n - 1);
      var w0 := WindowsUpTo(blob, size, threshold, n - 1);
      var st := Starts(blob, size, threshold, n);
      var w := WindowsUpTo(blob, size, threshold, n);
      if Qualifies(blob, size, threshold, n - 1) {
        assert st == st0 + [n - 1];
        assert w == w0 + [blob[n - 1..n - 1 + size]];
        forall k | 0 <= k < |st| ensures w[k] == blob[st[k]..st[k] + size] {
          if k < |st0| {
            assert w[k] == w0[k] && st[k] == st0[k];
          }
        }
      } else {
        assert st == st0 && w == w0;
      }
    }
  }

  /** The `k`-th window is cut at the `k`-th start and has enough distinct bytes. */
  lemma WindowAt(blob: seq<byte>, size: nat, threshold: nat, n: nat, k: nat)
    requires n + size <= |blob| + 1
    requires k < |Starts(blob, size, threshold, n)|
    ensures var st := Starts(blob, size, threshold, n);
      var w := WindowsUpTo(blob, size, threshold, n);
      && k < |w|
      && w[k] == blob[st[k]..st[k] + size]
      && |w[k]| == size
      && |ByteSet(w[k])| >= threshold
  {
    var st := Starts(blob, size, threshold, n);
    WindowsUpToStarts(blob, size, threshold, n);
    StartsSpec(blob, size, threshold, n);
    assert st[k] in st;
    assert Qualifies(blob, size, threshold, st[k]);
  }

  lemma WindowsUpToCut(blob: seq<byte>, size: nat, threshold: nat, n: nat)
    requires n + size <= |blob| + 1
    ensures var st := Starts(blob, size, threshold, n);
      var w := WindowsUpTo(blob, size, threshold, n);
      && |w| == |st|
      && (forall k :: 0 <= k < |st| ==>
            (w[k] == blob[st[k]..st[k] + size] && |w[k]| == size && |ByteSet(w[k])| >= threshold))
  {
    var st := Starts(blob, size, threshold, n);
    var w := WindowsUpTo(blob, size, threshold, n);
    WindowsUpToStarts(blob, size, threshold, n);
    forall k | 0 <= k < |st|
      ensures w[k] == blob[st[k]..st[k] + size] && |w[k]| == size && |ByteSet(w[k])| >= threshold
    {
      WindowAt(blob, size, threshold, n, k);
    }
  }

  /** Each window is cut at its start and has enough distinct bytes. */
  lemma WindowsCut(blob: seq<byte>, size: nat, threshold: nat)
    requires size <= |blob|
    ensures var st := Starts(blob, size, threshold, |blob| - size + 1);
      var w := Windows(blob, size, threshold);
      && |w| == |st|
      && (forall k :: 0 <= k < |st| ==>
            (w[k] == blob[st[k]..st[k] + size] && |w[k]| == size && |ByteSet(w[k])| >= threshold))
  {
    var n := |blob| - size + 1;
    assert Windows(blob, size, threshold) == WindowsUpTo(blob, size, threshold, n);
    WindowsUpToCut(blob, size, threshold, n);
  }

  /** The starts ascend and are exactly the qualifying ones. */
  lemma WindowStarts(blob: seq<byte>, size: nat, threshold: nat)
    requires size <= |blob|
    ensures var st := Starts(blob, size, threshold, |blob| - size + 1);
      && (forall j, k :: 0 <= j < k < |st| ==> st[j] < st[k])
      && (forall s: nat :: s + size <= |blob| ==> (s in st <==> Qualifies(blob, size, threshold, s)))
  {
    var n := |blob| - size + 1;
    var st := Starts(blob, size, threshold, n);
    StartsSpec(blob, size, threshold, n);
    forall s: nat | s + size <= |blob|
      ensures s in st <==> Qualifies(blob, size, threshold, s)
    {
      assert s < n;
    }
  }

  /** The windows are exactly those of the qualifying starts, each once and in
      ascending start order. */
  lemma WindowsSpec(blob: seq<byte>, size: nat, threshold: nat)
    requires size <= |blob|
    ensures var st := Starts(blob, size, threshold, |blob| - size + 1);
      var w := Windows(blob, size, threshold);
      && |w| == |st|
      && (forall k :: 0 <= k < |st| ==>
            (w[k] == blob[st[k]..st[k] + size] && |w[k]| == size && |ByteSet(w[k])| >= threshold))
      && (forall j, k :: 0 <= j < k < |st| ==> st[j] < st[k])
      && (forall s: nat :: s + size <= |blob| ==> (s in st <==> Qualifies(blob, size, threshold, s)))
  {
    WindowsCut(blob, size, threshold);
    WindowStarts(blob, size, threshold);
  }

  /** A 32-byte stretch of the blob with at least 12 distinct bytes is among
      the candidates, whatever surrounds it. */
  lemma KnownKeyIsCandidate(blob: seq<byte>, start: nat)
    requires start + 32 <= |blob|
    requires |ByteSet(blob[start..start + 32])| >= 12
    ensures blob[start..start + 32] in KeyCandidates(blob)
  {
    WindowsSpec(blob, 32, 12);
    var st := Starts(blob, 32, 12, |blob| - 32 + 1);
    assert start in st;
    var k :| 0 <= k < |st| && st[k] == start;
    assert Windows(blob, 32, 12)[k] == blob[start..start + 32];
    assert KeyCandidates(blob)[k] == Windows(blob, 32, 12)[k];
  }

  // ---------------------------------------------------------------- columns

  const ChatIdColumns: seq<string> :=
    ["chat_id", "session_id", "talker", "username", "user_name", "user", "chatid", "conversation_id", "usrname"]
  const TitleColumns: seq<string> := ["chat_title", "title", "name", "nick", "nickname", "display_name"]
  const TextColumns: seq<string> := ["content", "text", "message", "msg", "strcontent", "body"]
  const TimeColumns: seq<string> :=
    ["create_time", "createtime", "timestamp", "msg_time", "msgcreatetime", "time", "msgtime", "createTime"]
  const IdColumns: seq<string> := ["msg_id", "id", "local_id", "msgid", "server_id", "msgsvrid", "meslocalid"]

  /** The first column at or after `from` equal to `candidate` up to ASCII case. */
  function ColumnMatchFrom(columns: seq<string>, candidate: string, from: nat): (j: Option<nat>)
    requires from <= |columns|
    ensures j.Some? ==>
      && from <= j.value < |columns| && EqIgnoreAsciiCase(columns[j.value], candidate)
      && forall k :: from <= k < j.value ==> !EqIgnoreAsciiCase(columns[k], candidate)
    ensures j.None? ==> forall k :: from <= k < |columns| ==> !EqIgnoreAsciiCase(columns[k], candidate)
    decreases |columns| - from
  {
    if from == |columns| then None
    else if EqIgnoreAsciiCase(columns[from], candidate) then Some(from)
    else ColumnMatchFrom(columns, candidate, from + 1)
  }

  function ColumnMatch(columns: seq<string>, candidate: string): Option<nat> {
    ColumnMatchFrom(columns, candidate, 0)
  }

  /** The first candidate at or after `from` that some column matches. */
  function FirstCandidateFrom(columns: seq<string>, candidates: seq<string>, from: nat): (i: Option<nat>)
    requires from <= |candidates|
    ensures i.Some? ==>
      && from <= i.value < |candidates| && ColumnMatch(columns, candidates[i.value]).Some?
      && forall k :: from <= k < i.value ==> ColumnMatch(columns, candidates[k]).None?
    ensures i.None? ==> forall k :: from <= k < |candidates| ==> ColumnMatch(columns, candidates[k]).None?
    decreases |candidates| - from
  {
    if from == |candidates| then None
    else if ColumnMatch(columns, candidates[from]).Some? then Some(from)
    else FirstCandidateFrom(columns, candidates, from + 1)
  }

  /** `pick_column`: candidates are tried in their order of preference, and the
      column is returned in its own spelling. */
  function PickColumn(columns: seq<string>, candidates: seq<string>): (r: Option<string>) {
    match FirstCandidateFrom(columns, candidates, 0)
    case None => None
    case Some(i) => Some(columns[ColumnMatch(columns, candidates[i]).value])
  }

  /** A picked column is one of the table's, equal up to ASCII case to a
      candidate none of whose predecessors any column matches, and the first
      such column; nothing is picked exactly when no column matches any candidate. */
  lemma PickColumnSpec(columns: seq<string>, candidates: seq<string>)
    ensures PickColumn(columns, candidates).None? <==>
      forall i, j :: 0 <= i < |candidates| && 0 <= j < |columns| ==> !EqIgnoreAsciiCase(columns[j], candidates[i])
    ensures PickColumn(columns, candidates).Some? ==>
      exists i, j :: 0 <= i < |candidates| && 0 <= j < |columns|
        && PickColumn(columns, candidates).value == columns[j]
        && EqIgnoreAsciiCase(columns[j], candidates[i])
        && (forall k :: 0 <= k < j ==> !EqIgnoreAsciiCase(columns[k], candidates[i]))
        && (forall i', k :: 0 <= i' < i && 0 <= k < |columns| ==> !EqIgnoreAsciiCase(columns[k], candidates[i']))
  {
    var first := FirstCandidateFrom(columns, candidates, 0);
    if first.None? {
      forall i, j | 0 <= i < |candidates| && 0 <= j < |columns|
        ensures !EqIgnoreAsciiCase(columns[j], candidates[i])
      {
        assert ColumnMatch(columns, candidates[i]).None?;
      }
    } else {
      var i := first.value;
      var j := ColumnMatch(columns, candidates[i]).value;
      forall i', k | 0 <= i' < i && 0 <= k < |columns|
        ensures !EqIgnoreAsciiCase(columns[k], candidates[i'])
      {
        assert ColumnMatch(columns, candidates[i']).None?;
      }
    }
  }

  // ---------------------------------------------------------------- tables

  datatype Table = Table(name: string, columns: seq<string>)

  /** Which table is looked for: the session table (chat id and title) or the
      message table (chat id and text). */
  datatype TableRole = SessionRole | MessageRole

  const ErrNoSessionTable: string := "未找到 session 表"
  const ErrNoMessageTable: string := "未找到 message 表"

  function SecondColumns(role: TableRole): seq<string> {
    match role
    case SessionRole => TitleColumns
    case MessageRole => TextColumns
  }

  /** The bonus a table's lower-cased name earns. */
  function NameBonus(name: string, role: TableRole): nat {
    var lower := AsciiLower(name);
    match role
    case SessionRole => (if Contains(lower, "session") then 2 else 0) + (if Contains(lower, "chat") then 1 else 0)
    case MessageRole => (if Contains(lower, "message") then 3 else 0) + (if Contains(lower, "msg") then 1 else 0)
  }

  /** A table without both columns is not a candidate; otherwise 2 for the chat
      id column and 1 for the other, plus the name bonus. */
  function Score(t: Table, role: TableRole): Option<nat> {
    if PickColumn(t.columns, ChatIdColumns).None? || PickColumn(t.columns, SecondColumns(role)).None? then None
    else Some(3 + NameBonus(t.name, role))
  }

  function Scores(tables: seq<Table>, role: TableRole): (sc: seq<Option<nat>>)
    ensures |sc| == |tables| && forall i :: 0 <= i < |tables| ==> sc[i] == Score(tables[i], role)
  {
    seq(|tables|, i requires 0 <= i < |tables| => Score(tables[i], role))
  }

  /** The best among the first `n` scores: a later one replaces the best so far
      only when strictly higher. */
  function BestUpTo(sc: seq<Option<nat>>, n: nat): (b: Option<nat>)
    requires n <= |sc|
    ensures b.Some? ==> b.value < n && sc[b.value].Some?
  {
    if n == 0 then None
    else
      var prev := BestUpTo(sc, n - 1);
      if sc[n - 1].Some? && (prev.None? || sc[prev.value].value < sc[n - 1].value) then Some(n - 1)
      else prev
  }

  /** `b` has the highest of the first `n` scores, and every earlier score is
      strictly lower. */
  predicate BestAmong(sc: seq<Option<nat>>, n: nat, b: nat)
    requires n <= |sc|
  {
    && b < n && sc[b].Some?
    && (forall i :: 0 <= i < n && sc[i].Some? ==> sc[i].value <= sc[b].value)
    && (forall i :: 0 <= i < b && sc[i].Some? ==> sc[i].value < sc[b].value)
  }

  lemma {:induction false} BestUpToSpec(sc: seq<Option<nat>>, n: nat)
    requires n <= |sc|
    ensures BestUpTo(sc, n).None? <==> forall i :: 0 <= i < n ==> sc[i].None?
    ensures BestUpTo(sc, n).Some? ==> BestAmong(sc, n, BestUpTo(sc, n).value)
  {
    if n > 0 {
      BestUpToSpec(sc, n - 1);
    }
  }

  /** Only one score can be the best, so the choice is determined. */
  lemma BestIsUnique(sc: seq<Option<nat>>, b1: nat, b2: nat)
    requires BestAmong(sc, |sc|, b1) && BestAmong(sc, |sc|, b2)
    ensures b1 == b2
  {
  }

  /** The table the locate functions choose. */
  function Best(tables: seq<Table>, role: TableRole): Option<nat> {
    BestUpTo(Scores(tables, role), |tables|)
  }

  /** The loop shared by `locate_session_table` and `locate_message_table`, over
      the tables' scores in order. */
  method BestOf(sc: seq<Option<nat>>) returns (best: Option<nat>)
    ensures best == BestUpTo(sc, |sc|)
  {
    best := None;
    var bestScore: int := -1;
    for i := 0 to |sc|
      invariant best == BestUpTo(sc, i)
      invariant bestScore == if best.None? then -1 else sc[best.value].value
    {
      var score := sc[i];
      if score.Some? && bestScore < score.value {
        best := Some(i);
        bestScore := score.value;
      }
    }
  }

  method BestTable(tables: seq<Table>, role: TableRole) returns (best: Option<nat>)
    ensures best == Best(tables, role)
  {
    var sc := Scores(tables, role);
    best := BestOf(sc);
  }

  /** `locate_session_table`: the best table's name, chat id column and title column. */
  function SessionTable(tables: seq<Table>): Result<(string, string, string), string> {
    match Best(tables, SessionRole)
    case None => Err(ErrNoSessionTable)
    case Some(b) =>
      Ok((tables[b].name, PickColumn(tables[b].columns, ChatIdColumns).value,
          PickColumn(tables[b].columns, TitleColumns).value))
  }

  method LocateSessionTable(tables: seq<Table>) returns (r: Result<(string, string, string), string>)
    ensures r == SessionTable(tables)
  {
    var best := BestTable(tables, SessionRole);
    if best.None? {
      return Err(ErrNoSessionTable);
    }
    var t := tables[best.value];
    return Ok((t.name, PickColumn(t.columns, ChatIdColumns).value, PickColumn(t.columns, TitleColumns).value));
  }

  /** `locate_message_table`, with the columns of the table it names. */
  function MessageTable(tables: seq<Table>): Result<Table, string> {
    match Best(tables, MessageRole)
    case None => Err(ErrNoMessageTable)
    case Some(b) => Ok(tables[b])
  }

  method LocateMessageTable(tables: seq<Table>) returns (r: Result<Table, string>)
    ensures r == MessageTable(tables)
  {
    var best := BestTable(tables, MessageRole);
    if best.None? {
      return Err(ErrNoMessageTable);
    }
    return Ok(tables[best.value]);
  }

  /** The table located for a role is the first of the highest score among
      those with both of its columns, and there is none exactly when no table
      has both. */
  lemma BestTableSpec(tables: seq<Table>, role: TableRole)
    ensures var sc := Scores(tables, role);
      && (Best(tables, role).None? <==> forall i :: 0 <= i < |sc| ==> sc[i].None?)
      && (Best(tables, role).Some? ==> BestAmong(sc, |sc|, Best(tables, role).value))
  {
    var sc := Scores(tables, role);
    BestUpToSpec(sc, |sc|);
  }

  // ---------------------------------------------------------------- recent chats

  const SessionRowLimit: nat := 200
  const ErrNoChats: string := "会话列表为空"

  /** The rows `list_recent_chats` reads: the (chat id, title) pairs of the
      session table, newest row first, at most 200 of them. */
  function SessionRows(rows: seq<(string, string)>): (cs: seq<ChatSummary>)
    ensures |cs| == if |rows| < SessionRowLimit then |rows| else SessionRowLimit
    ensures forall i :: 0 <= i < |cs| ==> cs[i] == ChatSummary(rows[i].0, rows[i].1, UnknownKind)
  {
    var n := if |rows| < SessionRowLimit then |rows| else SessionRowLimit;
    seq(n, i requires 0 <= i < n => ChatSummary(rows[i].0, rows[i].1, UnknownKind))
  }

  /** `list_recent_chats` once the session table is located: the first row of
      each non-blank chat id, and an error when there is none. */
  function RecentSessionChats(tables: seq<Table>, rows: seq<(string, string)>): Result<seq<ChatSummary>, string> {
    if SessionTable(tables).Err? then Err(SessionTable(tables).error)
    else
      var chats := SessionList.FirstChats(SessionRows(rows), {});
      if chats == [] then Err(ErrNoChats) else Ok(chats)
  }

  /** The loop of `list_recent_chats` with its `seen` set. */
  method CollectSessionChats(rows: seq<(string, string)>) returns (chats: seq<ChatSummary>)
    ensures chats == SessionList.FirstChats(SessionRows(rows), {})
  {
    var n := if |rows| < SessionRowLimit then |rows| else SessionRowLimit;
    ghost var cs := SessionRows(rows);
    ghost var f := SessionList.FirstChats(cs, {});
    assert |cs| == n;
    var seen: set<string> := {};
    chats := [];
    for i := 0 to n
      invariant chats + SessionList.FirstChats(cs[i..], seen) == f
    {
      var chat := ChatSummary(rows[i].0, rows[i].1, UnknownKind);
      assert cs[i] == chat;
      SessionList.FirstChatsLoopStep(cs, i, seen, chats, f);
      if IsBlank(chat.chatId) || chat.chatId in seen {
        continue;
      }
      seen := seen + {chat.chatId};
      chats := chats + [chat];
    }
    assert cs[n..] == [];
    assert SessionList.FirstChats(cs[n..], seen) == [];
  }

  method ListRecentChats(tables: seq<Table>, rows: seq<(string, string)>) returns (r: Result<seq<ChatSummary>, string>)
    ensures r == RecentSessionChats(tables, rows)
  {
    var located := LocateSessionTable(tables);
    if located.Err? {
      return Err(located.error);
    }
    var chats := CollectSessionChats(rows);
    if chats == [] {
      return Err(ErrNoChats);
    }
    return Ok(chats);
  }

  /** The listing holds no blank and no repeated chat id, keeps the first row of
      each id in the newest 200, loses none of them, and fails exactly when
      those rows hold no usable id or there is no session table. */
  lemma RecentSessionChatsProperties(tables: seq<Table>, rows: seq<(string, string)>)
    requires SessionTable(tables).Ok?
    ensures var cs := SessionRows(rows);
      var r := RecentSessionChats(tables, rows);
      && (r.Err? <==> forall i :: 0 <= i < |cs| ==> IsBlank(cs[i].chatId))
      && (r.Err? ==> r.error == ErrNoChats)
      && (r.Ok? ==>
            && |r.value| <= SessionRowLimit
            && (forall k :: 0 <= k < |r.value| ==> !IsBlank(r.value[k].chatId))
            && (forall j, k :: 0 <= j < k < |r.value| ==> r.value[j].chatId != r.value[k].chatId)
            && SessionList.FirstOccurrences(r.value, cs)
            && (forall i :: 0 <= i < |cs| && !IsBlank(cs[i].chatId) ==> cs[i].chatId in SessionList.Ids(r.value)))
  {
    var cs := SessionRows(rows);
    var chats := SessionList.FirstChats(cs, {});
    SessionList.FirstChatsProperties(cs);
    if chats != [] {
      var i := SessionList.FirstIndexOf(cs, chats[0].chatId);
      assert i < |cs| && cs[i].chatId == chats[0].chatId;
    }
  }

  // ---------------------------------------------------------------- message cursor

  const ErrNoMessageDb: string := "消息数据库不存在"
  const ErrNoChatColumn: string := "chat 列缺失"
  const ErrNoTextColumn: string := "text 列缺失"

  /** How the query orders rows, by which columns the message table has. */
  datatype Ordering = ByTimeAndId | ByTime | ByRowId

  /** A row of the message table as the query sees it: the chat id and text
      columns, the time and id columns (read only when present), the rowid. */
  datatype Row = Row(chatId: string, text: string, time: int, id: int, rowid: int)

  /** The last message key handed out. */
  datatype Cursor = Cursor(lastTimestamp: Option<int>, lastMsgId: Option<int>)

  /** `IncomingMessage`. */
  datatype IncomingMessage = IncomingMessage(chatId: string, text: string, timestamp: nat, msgId: Option<string>)

  function OrderingOf(columns: seq<string>): Ordering {
    if PickColumn(columns, TimeColumns).None? then ByRowId
    else if PickColumn(columns, IdColumns).None? then ByTime
    else ByTimeAndId
  }

  /** The key a row is ordered by and the cursor records: (time, id), (time, 0)
      when there is no id column, (rowid, rowid) when there is no time column. */
  function KeyOf(r: Row, o: Ordering): (int, int) {
    match o
    case ByTimeAndId => (r.time, r.id)
    case ByTime => (r.time, 0)
    case ByRowId => (r.rowid, r.rowid)
  }

  /** The key the query's `WHERE` compares against; a missing value counts as 0. */
  function CursorKey(c: Cursor, o: Ordering): (int, int) {
    match o
    case ByTimeAndId => (c.lastTimestamp.GetOr(0), c.lastMsgId.GetOr(0))
    case ByTime => (c.lastTimestamp.GetOr(0), 0)
    case ByRowId => (c.lastMsgId.GetOr(0), c.lastMsgId.GetOr(0))
  }

  /** Lexicographic order on keys. */
  predicate Later(a: (int, int), b: (int, int)) {
    a.0 > b.0 || (a.0 == b.0 && a.1 > b.1)
  }

  /** The row the query returns: the latest key among the rows later than
      `after`; of rows with equal keys, the first. */
  function Newest(rows: seq<Row>, o: Ordering, after: (int, int)): (r: Option<nat>)
    ensures r.Some? ==> r.value < |rows| && Later(KeyOf(rows[r.value], o), after)
    ensures r.Some? ==> forall j :: 0 <= j < |rows| ==> !Later(KeyOf(rows[j], o), KeyOf(rows[r.value], o))
    ensures r.Some? ==> forall j :: 0 <= j < r.value ==> KeyOf(rows[j], o) != KeyOf(rows[r.value], o)
    ensures r.None? <==> forall j :: 0 <= j < |rows| ==> !Later(KeyOf(rows[j], o), after)
  {
    if rows == [] then None
    else
      var n := |rows| - 1;
      var prev := Newest(rows[..n], o, after);
      var k := KeyOf(rows[n], o);
      assert forall j :: 0 <= j < n ==> rows[..n][j] == rows[j];
      if Later(k, after) && (prev.None? || Later(k, KeyOf(rows[prev.value], o))) then Some(n)
      else prev
  }

  /** One poll against the located message table: the cursor afterwards and
      the message, if any. */
  function PollTable(c: Cursor, columns: seq<string>, rows: seq<Row>): Result<(Cursor, Option<IncomingMessage>), string> {
    if PickColumn(columns, ChatIdColumns).None? then Err(ErrNoChatColumn)
    else if PickColumn(columns, TextColumns).None? then Err(ErrNoTextColumn)
    else Ok(PollRows(c, OrderingOf(columns), rows))
  }

  /** The query and the cursor update, once the ordering is known. */
  function PollRows(c: Cursor, o: Ordering, rows: seq<Row>): (Cursor, Option<IncomingMessage>) {
    match Newest(rows, o, CursorKey(c, o))
    case None => (c, None)
    case Some(i) =>
      var k := KeyOf(rows[i], o);
      (Cursor(Some(k.0), Some(k.1)),
       Some(IncomingMessage(rows[i].chatId, rows[i].text, if k.0 < 0 then 0 else k.0, Some(IntToString(k.1)))))
  }

  /** `poll_latest_message`: the first message database that exists, its
      message table, then one poll; the cursor is unchanged on any error. */
  function PollLatest(c: Cursor, messageDb: Option<seq<Table>>, rows: seq<Row>): (Cursor, Result<Option<IncomingMessage>, string>) {
    if messageDb.None? then (c, Err(ErrNoMessageDb))
    else
      var table := MessageTable(messageDb.value);
      if table.Err? then (c, Err(table.error))
      else
        match PollTable(c, table.value.columns, rows)
        case Err(e) => (c, Err(e))
        case Ok((next, m)) => (next, Ok(m))
  }

  lemma KeyOfCursor(r: Row, o: Ordering)
    ensures var k := KeyOf(r, o); CursorKey(Cursor(Some(k.0), Some(k.1)), o) == k
  {
  }

  /** A poll that returns a message advances the cursor to that message's key,
      which is later than the cursor and than no row; a poll that returns none
      leaves the cursor as it was, with no row later than it. */
  lemma PollAdvances(c: Cursor, columns: seq<string>, rows: seq<Row>)
    requires PollTable(c, columns, rows).Ok?
    ensures var (next, m) := PollTable(c, columns, rows).value;
      var o := OrderingOf(columns);
      && (m.None? ==> next == c && forall j :: 0 <= j < |rows| ==> !Later(KeyOf(rows[j], o), CursorKey(c, o)))
      && (m.Some? ==>
            && Later(CursorKey(next, o), CursorKey(c, o))
            && (forall j :: 0 <= j < |rows| ==> !Later(KeyOf(rows[j], o), CursorKey(next, o)))
            && exists i :: 0 <= i < |rows| && KeyOf(rows[i], o) == CursorKey(next, o)
                 && m.value.chatId == rows[i].chatId && m.value.text == rows[i].text)
  {
    var o := OrderingOf(columns);
    var n := Newest(rows, o, CursorKey(c, o));
    if n.Some? {
      KeyOfCursor(rows[n.value], o);
    }
  }

  /** Polling again with the cursor a message left behind finds nothing: each
      message is reported once. */
  lemma PollTwiceIsOnce(c: Cursor, columns: seq<string>, rows: seq<Row>)
    requires PollTable(c, columns, rows).Ok?
    ensures var next := PollTable(c, columns, rows).value.0;
      PollTable(next, columns, rows) == Ok((next, None))
  {
    PollAdvances(c, columns, rows);
  }

  const ExampleColumns: seq<string> := ["chat_id", "content", "create_time", "msg_id"]
  const ExampleRows: seq<Row> := [Row("c1", "hi", 10, 1, 1), Row("c1", "latest", 20, 2, 2)]

  lemma ExampleChatColumn()
    ensures PickColumn(ExampleColumns, ChatIdColumns) == Some("chat_id")
  {
  }

  lemma ExampleTextColumn()
    ensures PickColumn(ExampleColumns, TextColumns) == Some("content")
  {
  }

  lemma ExampleTimeColumn()
    ensures PickColumn(ExampleColumns, TimeColumns) == Some("create_time")
  {
    EqIgnoreAsciiCaseRefl("create_time");
    assert !EqIgnoreAsciiCase("chat_id", "create_time");
    assert !EqIgnoreAsciiCase("content", "create_time");
    assert ColumnMatch(ExampleColumns, TimeColumns[0]) == Some(2);
  }

  lemma ExampleIdColumn()
    ensures PickColumn(ExampleColumns, IdColumns) == Some("msg_id")
  {
  }

  lemma ExampleTableLocated()
    ensures MessageTable([Table("message", ExampleColumns)]) == Ok(Table("message", ExampleColumns))
  {
    ExampleChatColumn();
    ExampleTextColumn();
    var tables := [Table("message", ExampleColumns)];
    assert Scores(tables, MessageRole)[0].Some?;
  }

  lemma ExampleFirstPoll()
    ensures PollTable(Cursor(None, None), ExampleColumns, ExampleRows)
      == Ok((Cursor(Some(20), Some(2)), Some(IncomingMessage("c1", "latest", 20, Some("2")))))
  {
    ExampleChatColumn();
    ExampleTextColumn();
    ExampleTimeColumn();
    ExampleIdColumn();
    assert OrderingOf(ExampleColumns) == ByTimeAndId;
    ExampleRowsPolled();
  }

  lemma ExampleRowsPolled()
    ensures PollRows(Cursor(None, None), ByTimeAndId, ExampleRows)
      == (Cursor(Some(20), Some(2)), Some(IncomingMessage("c1", "latest", 20, Some("2"))))
  {
    ExampleNewest();
    assert IntToString(2) == "2";
  }

  lemma ExampleNewest()
    ensures Newest(ExampleRows, ByTimeAndId, (0, 0)) == Some(1)
  {
    assert ExampleRows[..1] == [ExampleRows[0]];
    assert ExampleRows[..1][..0] == [];
    assert Newest(ExampleRows[..1], ByTimeAndId, (0, 0)) == Some(0);
  }

  /** A message table with time and id columns and two rows: the first poll
      reports the later row, the second nothing. */
  lemma PollLatestExample()
    ensures var tables := [Table("message", ExampleColumns)];
      var (c1, r1) := PollLatest(Cursor(None, None), Some(tables), ExampleRows);
      && c1 == Cursor(Some(20), Some(2))
      && r1 == Ok(Some(IncomingMessage("c1", "latest", 20, Some("2"))))
      && PollLatest(c1, Some(tables), ExampleRows) == (c1, Ok(None))
  {
    ExampleTableLocated();
    ExampleFirstPoll();
    PollTwiceIsOnce(Cursor(None, None), ExampleColumns, ExampleRows);
  }

  const FridaRetryCooldownMs: nat := 30000

  /** `Instant::elapsed`: the time since `last`, and 0 for a clock reading
      before it. */
  function Elapsed(last: nat, now: nat): nat {
    if now >= last then now - last else 0
  }

  /** Whether `should_attempt_frida` lets an attempt through at `now` (ms). */
  predicate FridaDue(last: Option<nat>, now: nat) {
    last.None? || Elapsed(last.value, now) >= FridaRetryCooldownMs
  }

  /** After an attempt no other is let through for 30 seconds, and one is at 30
      seconds. */
  lemma FridaCooldown(now: nat, later: nat)
    ensures FridaDue(Some(now), later) <==> later >= now + FridaRetryCooldownMs
    ensures FridaDue(None, now)
  {
  }

  /** The reader's mutable state: the message cursor and the time of the last
      Frida attempt. */
  class MacosDb {
    var cursor: Cursor
    var lastFridaAttempt: Option<nat>

    constructor ()
      ensures cursor == Cursor(None, None) && lastFridaAttempt == None
    {
      cursor := Cursor(None, None);
      lastFridaAttempt := None;
    }

    /** `poll_latest_message`, given the tables of the first message database
        that exists (`None` when none does) and the message table's rows. */
    method PollLatestMessage(messageDb: Option<seq<Table>>, rows: seq<Row>) returns (r: Result<Option<IncomingMessage>, string>)
      modifies this
      ensures (cursor, r) == PollLatest(old(cursor), messageDb, rows)
      ensures lastFridaAttempt == old(lastFridaAttempt)
    {
      if messageDb.None? {
        return Err(ErrNoMessageDb);
      }
      var table := LocateMessageTable(messageDb.value);
      if table.Err? {
        return Err(table.error);
      }
      var columns := table.value.columns;
      if PickColumn(columns, ChatIdColumns).None? {
        return Err(ErrNoChatColumn);
      }
      if PickColumn(columns, TextColumns).None? {
        return Err(ErrNoTextColumn);
      }
      var o := OrderingOf(columns);
      var newest := Newest(rows, o, CursorKey(cursor, o));
      if newest.None? {
        return Ok(None);
      }
      var row := rows[newest.value];
      var k := KeyOf(row, o);
      cursor := Cursor(Some(k.0), Some(k.1));
      r := Ok(Some(IncomingMessage(row.chatId, row.text, if k.0 < 0 then 0 else k.0, Some(IntToString(k.1)))));
    }

    /** `should_attempt_frida` at time `now` (ms since a fixed origin). */
    method ShouldAttemptFrida(now: nat) returns (attempt: bool)
      modifies this
      ensures attempt == FridaDue(old(lastFridaAttempt), now)
      ensures lastFridaAttempt == if attempt then Some(now) else old(lastFridaAttempt)
      ensures cursor == old(cursor)
    {
      if lastFridaAttempt.Some? && Elapsed(lastFridaAttempt.value, now) < FridaRetryCooldownMs {
        return false;
      }
      lastFridaAttempt := Some(now);
      return true;
    }
  }
}
