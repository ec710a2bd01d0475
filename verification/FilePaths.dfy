/**
  Paths of the file server (src/file_server.rs): percent-decoding of URI segments and
  the validation of relative paths.

  Strings are their UTF-8 bytes; which byte strings are valid UTF-8 is a parameter.
*/
module FilePaths {
  import opened Bags
  import opened Text

  newtype byte = x: int | 0 <= x < 256
  type Bytes = seq<byte>

  const PERCENT: byte := 37
  const DOT: byte := 46
  const SLASH: byte := 47
  const COLON: byte := 58
  const BACKSLASH: byte := 92
  const MAX_RELATIVE_PATH_BYTES := 4 * 1024

  // --------------------------------------------------------- percent-decoding

  function HexValue(b: byte): Option<byte> {
    if 48 <= b <= 57 then Some(b - 48)
    else if 97 <= b <= 102 then Some(b - 87)
    else if 65 <= b <= 70 then Some(b - 55)
    else None
  }

  function HexByte(high: byte, low: byte): byte
    requires high < 16 && low < 16
  {
    high * 16 + low
  }

  /** The escaped byte at the head of `s`, unless it is malformed or a separator. */
  function Escape(s: Bytes): Option<byte> {
    if |s| < 3 || HexValue(s[1]).None? || HexValue(s[2]).None? then None
    else
      var b := HexByte(HexValue(s[1]).value, HexValue(s[2]).value);
      if b == SLASH || b == BACKSLASH then None else Some(b)
  }

  function Decoded(s: Bytes): Option<Bytes> {
    if s == [] then Some([])
    else if s[0] != PERCENT then
      var rest := Decoded(s[1..]);
      if rest.None? then None else Some([s[0]] + rest.value)
    else if Escape(s).None? then None
    else
      var rest := Decoded(s[3..]);
      if rest.None? then None else Some([Escape(s).value] + rest.value)
  }

  function Prefixed(out: Bytes, rest: Option<Bytes>): Option<Bytes> {
    if rest.None? then None else Some(out + rest.value)
  }

  lemma PrefixedStep(out: Bytes, b: byte, rest: Option<Bytes>)
    ensures Prefixed(out + [b], rest) == Prefixed(out, Prefixed([b], rest))
  {
    if rest.Some? {
      assert out + [b] + rest.value == out + ([b] + rest.value);
    }
  }

  method PercentDecode(input: Bytes) returns (result: Option<Bytes>)
    ensures result == Decoded(input)
  {
    var output: Bytes := [];
    var index := 0;
    assert input[0..] == input;
    assert Decoded(input).Some? ==> [] + Decoded(input).value == Decoded(input).value;
    while index < |input|
      invariant index <= |input|
      invariant Decoded(input) == Prefixed(output, Decoded(input[index..]))
    {
      ghost var tail, before := input[index..], output;
      if input[index] != PERCENT {
        assert tail[1..] == input[index + 1..];
        output := output + [input[index]];
        assert Prefixed(before, Decoded(tail)) == Prefixed(output, Decoded(tail[1..])) by {
          PrefixedStep(before, input[index], Decoded(tail[1..]));
        }
        index := index + 1;
      } else {
        if index + 2 >= |input| {
          return None;
        }
        var high, low := HexValue(input[index + 1]), HexValue(input[index + 2]);
        if high.None? || low.None? {
          return None;
        }
        var b := HexByte(high.value, low.value);
        assert tail[3..] == input[index + 3..];
        if b == SLASH || b == BACKSLASH {
          return None;
        }
        output := output + [b];
        assert Prefixed(before, Decoded(tail)) == Prefixed(output, Decoded(tail[3..])) by {
          PrefixedStep(before, b, Decoded(tail[3..]));
        }
        index := index + 3;
      }
    }
    assert Decoded(input[|input|..]) == Some([]) && output + [] == output;
    result := Some(output);
  }

  // ------------------------------------------------------------- its inverses

  function HexDigit(v: byte, upper: bool): byte
    requires v < 16
  {
    if v < 10 then 48 + v else if upper then 55 + v else 87 + v
  }

  lemma HexInverse(v: byte, upper: bool)
    requires v < 16
    ensures HexValue(HexDigit(v, upper)) == Some(v)
  {
  }

  /** One way of writing a byte: literally, or escaped with either kind of digits. */
  datatype Style = Literal | Escaped(upperHigh: bool, upperLow: bool)

  function Written(b: byte, style: Style): Bytes {
    match style
    case Literal => [b]
    case Escaped(h, l) => [PERCENT, HexDigit(b / 16, h), HexDigit(b % 16, l)]
  }

  /** A percent sign must be escaped, a separator must not. */
  predicate Writable(b: byte, style: Style) {
    if style.Literal? then b != PERCENT else b != SLASH && b != BACKSLASH
  }

  function Encoded(out: Bytes, styles: seq<Style>): Bytes
    requires |styles| == |out|
  {
    if out == [] then [] else Written(out[0], styles[0]) + Encoded(out[1..], styles[1..])
  }

  predicate AllWritable(out: Bytes, styles: seq<Style>)
    requires |styles| == |out|
  {
    forall i :: 0 <= i < |out| ==> Writable(out[i], styles[i])
  }

  /** Whatever way the bytes are written, they are read back. */
  lemma {:induction false} DecodesWhatIsEncoded(out: Bytes, styles: seq<Style>)
    requires |styles| == |out| && AllWritable(out, styles)
    ensures Decoded(Encoded(out, styles)) == Some(out)
    decreases |out|
  {
    if out != [] {
      var rest := Encoded(out[1..], styles[1..]);
      DecodesWhatIsEncoded(out[1..], styles[1..]);
      assert Writable(out[0], styles[0]);
      var all := Encoded(out, styles);
      if styles[0].Literal? {
        assert all[0] == out[0] && all[1..] == rest;
      } else {
        HexInverse(out[0] / 16, styles[0].upperHigh);
        HexInverse(out[0] % 16, styles[0].upperLow);
        assert all[0] == PERCENT && all[3..] == rest;
        assert Escape(all) == Some(out[0]);
      }
      assert [out[0]] + out[1..] == out;
    }
  }

  lemma HexDigitInverse(b: byte) returns (upper: bool)
    requires HexValue(b).Some?
    ensures HexValue(b).value < 16 && HexDigit(HexValue(b).value, upper) == b
  {
    upper := b <= 70;
  }

  /** Whatever is read is one way of writing the result. */
  lemma {:induction false} DecodesOnlyEncodings(s: Bytes) returns (styles: seq<Style>)
    requires Decoded(s).Some?
    ensures |styles| == |Decoded(s).value| && AllWritable(Decoded(s).value, styles)
    ensures Encoded(Decoded(s).value, styles) == s
    decreases |s|
  {
    if s == [] {
      return [];
    }
    var out := Decoded(s).value;
    if s[0] != PERCENT {
      var rest := DecodesOnlyEncodings(s[1..]);
      styles := [Literal] + rest;
      assert out[1..] == Decoded(s[1..]).value && styles[1..] == rest;
      assert s == [s[0]] + s[1..];
    } else {
      var rest := DecodesOnlyEncodings(s[3..]);
      var h := HexDigitInverse(s[1]);
      var l := HexDigitInverse(s[2]);
      styles := [Escaped(h, l)] + rest;
      assert out[1..] == Decoded(s[3..]).value && styles[1..] == rest;
      var high, low := HexValue(s[1]).value, HexValue(s[2]).value;
      assert out[0] == high * 16 + low && out[0] / 16 == high && out[0] % 16 == low;
      assert s == [s[0], s[1], s[2]] + s[3..];
    }
  }

  lemma {:induction false} DecodedIsShorter(s: Bytes)
    requires Decoded(s).Some?
    ensures |Decoded(s).value| <= |s|
    decreases |s|
  {
    if s != [] {
      DecodedIsShorter(if s[0] != PERCENT then s[1..] else s[3..]);
    }
  }

  // -------------------------------------------------------------------- paths

  predicate SafeByte(b: byte) { b != 0 && b != BACKSLASH && b != COLON && b != SLASH }

  predicate SafeSegment(s: Bytes) { s != [] && s[0] != DOT && forall i :: 0 <= i < |s| ==> SafeByte(s[i]) }

  function ValidatedSegment(s: Bytes): Option<Bytes> { if SafeSegment(s) then Some(s) else None }

  /** A segment of a URI path. */
  function UriSegment(s: Bytes, utf8: Bytes -> bool): Option<Bytes> {
    if s == [] || BACKSLASH in s then None
    else
      var d := Decoded(s);
      if d.None? || !utf8(d.value) then None else ValidatedSegment(d.value)
  }

  /** All results, or none if one is missing. */
  function Collect(parts: seq<Bytes>, f: Bytes -> Option<Bytes>): Option<seq<Bytes>> {
    if parts == [] then Some([])
    else if f(parts[0]).None? then None
    else
      var rest := Collect(parts[1..], f);
      if rest.None? then None else Some([f(parts[0]).value] + rest.value)
  }

  predicate BadLength(path: Bytes) { path == [] || |path| > MAX_RELATIVE_PATH_BYTES }

  function ValidateRelativePath(path: Bytes): Option<seq<Bytes>> {
    if BadLength(path) then None else Collect(SplitOn(path, SLASH), ValidatedSegment)
  }

  function DecodeUriRelativePath(path: Bytes, utf8: Bytes -> bool): Option<seq<Bytes>> {
    if BadLength(path) then None else Collect(SplitOn(path, SLASH), s => UriSegment(s, utf8))
  }

  lemma {:induction false} CollectExact(parts: seq<Bytes>, f: Bytes -> Option<Bytes>)
    ensures Collect(parts, f).Some? <==> forall i :: 0 <= i < |parts| ==> f(parts[i]).Some?
    ensures Collect(parts, f).Some? ==>
      && |Collect(parts, f).value| == |parts|
      && forall i :: 0 <= i < |parts| ==> f(parts[i]) == Some(Collect(parts, f).value[i])
    decreases |parts|
  {
    if parts != [] {
      CollectExact(parts[1..], f);
      assert forall i :: 0 < i < |parts| ==> parts[i] == parts[1..][i - 1];
      assert f(parts[0]).Some? && (forall i :: 0 <= i < |parts[1..]| ==> f(parts[1..][i]).Some?) ==>
        forall i :: 0 <= i < |parts| ==> f(parts[i]).Some?;
      assert (forall i :: 0 <= i < |parts| ==> f(parts[i]).Some?) ==>
        forall i :: 0 <= i < |parts[1..]| ==> f(parts[1..][i]).Some? by {
        assert forall i :: 0 <= i < |parts[1..]| ==> parts[1..][i] == parts[i + 1];
      }
    }
  }

  function TotalLength(parts: seq<Bytes>): nat {
    if parts == [] then 0 else |parts[0]| + TotalLength(parts[1..])
  }

  lemma {:induction false} JoinLength(parts: seq<Bytes>)
    requires parts != []
    ensures |JoinWith(parts, SLASH)| == TotalLength(parts) + |parts| - 1
    decreases |parts|
  {
    if |parts| > 1 {
      JoinLength(parts[1..]);
    }
  }

  lemma {:induction false} TotalShorter(a: seq<Bytes>, b: seq<Bytes>)
    requires |a| == |b| && forall i :: 0 <= i < |a| ==> |a[i]| <= |b[i]|
    ensures TotalLength(a) <= TotalLength(b)
    decreases |a|
  {
    if a != [] {
      TotalShorter(a[1..], b[1..]);
    }
  }

  /** Segments that decode are safe: no separator, NUL, colon or leading dot. */
  lemma DecodedSegmentsAreSafe(path: Bytes, utf8: Bytes -> bool)
    requires DecodeUriRelativePath(path, utf8).Some?
    ensures var segments := DecodeUriRelativePath(path, utf8).value;
      && |segments| == |SplitOn(path, SLASH)|
      && (forall i :: 0 <= i < |segments| ==> SafeSegment(segments[i]) && utf8(segments[i]))
      && (forall i :: 0 <= i < |segments| ==> |segments[i]| <= |SplitOn(path, SLASH)[i]|)
  {
    var f := s => UriSegment(s, utf8);
    var parts := SplitOn(path, SLASH);
    CollectExact(parts, f);
    var segments := Collect(parts, f).value;
    forall i | 0 <= i < |segments|
      ensures SafeSegment(segments[i]) && utf8(segments[i]) && |segments[i]| <= |parts[i]|
    {
      assert f(parts[i]) == Some(segments[i]);
      DecodedIsShorter(parts[i]);
    }
  }

  /** A path of the request is taken for these segments exactly if it is not too long and each
      of its parts, none of them empty or with a backslash, decodes to that segment, which is
      safe and text. */
  lemma DecodesExactlySafeParts(path: Bytes, utf8: Bytes -> bool, segments: seq<Bytes>)
    ensures DecodeUriRelativePath(path, utf8) == Some(segments) <==>
      && !BadLength(path) && |segments| == |SplitOn(path, SLASH)|
      && forall i :: 0 <= i < |segments| ==>
           && SplitOn(path, SLASH)[i] != [] && BACKSLASH !in SplitOn(path, SLASH)[i]
           && Decoded(SplitOn(path, SLASH)[i]) == Some(segments[i])
           && utf8(segments[i]) && SafeSegment(segments[i])
  {
    var parts, f := SplitOn(path, SLASH), s => UriSegment(s, utf8);
    CollectExact(parts, f);
    if !BadLength(path) && Collect(parts, f).Some? {
      var found := Collect(parts, f).value;
      forall i | 0 <= i < |found| ensures UriSegment(parts[i], utf8) == Some(found[i]) {
        assert f(parts[i]) == Some(found[i]);
      }
      if |segments| == |parts| && forall i :: 0 <= i < |segments| ==> Decoded(parts[i]) == Some(segments[i]) {
        assert found == segments;
      }
    }
  }

  lemma {:induction false} EncodedHasNo(out: Bytes, styles: seq<Style>, b: byte)
    requires |styles| == |out| && b !in out && (b == SLASH || b == BACKSLASH)
    ensures b !in Encoded(out, styles) && |Encoded(out, styles)| >= |out|
    decreases |out|
  {
    if out != [] {
      EncodedHasNo(out[1..], styles[1..], b);
      assert b !in Written(out[0], styles[0]);
    }
  }

  /** Safe segments are found again from every path that writes them, however their bytes are
      escaped. */
  lemma DecodesEveryWriting(segments: seq<Bytes>, styles: seq<seq<Style>>, parts: seq<Bytes>, utf8: Bytes -> bool)
    requires segments != [] && |styles| == |parts| == |segments|
    requires forall i :: 0 <= i < |segments| ==> SafeSegment(segments[i]) && utf8(segments[i])
    requires forall i :: 0 <= i < |segments| ==>
      && |styles[i]| == |segments[i]| && AllWritable(segments[i], styles[i])
      && parts[i] == Encoded(segments[i], styles[i])
    requires |JoinWith(parts, SLASH)| <= MAX_RELATIVE_PATH_BYTES
    ensures DecodeUriRelativePath(JoinWith(parts, SLASH), utf8) == Some(segments)
  {
    forall i | 0 <= i < |parts|
      ensures SLASH !in parts[i] && BACKSLASH !in parts[i] && parts[i] != [] && Decoded(parts[i]) == Some(segments[i])
    {
      assert forall j :: 0 <= j < |segments[i]| ==> SafeByte(segments[i][j]);
      EncodedHasNo(segments[i], styles[i], SLASH);
      EncodedHasNo(segments[i], styles[i], BACKSLASH);
      DecodesWhatIsEncoded(segments[i], styles[i]);
    }
    SplitJoin(parts, SLASH);
    JoinLength(parts);
    assert |parts[0]| > 0;
    DecodesExactlySafeParts(JoinWith(parts, SLASH), utf8, segments);
  }

  lemma SafeHasNoSlash(segments: seq<Bytes>)
    requires forall i :: 0 <= i < |segments| ==> SafeSegment(segments[i])
    ensures forall i :: 0 <= i < |segments| ==> SLASH !in segments[i]
  {
    forall i | 0 <= i < |segments| ensures SLASH !in segments[i] {
      assert forall j :: 0 <= j < |segments[i]| ==> SafeByte(segments[i][j]);
    }
  }

  /** Joining the decoded segments gives a path that the plain validation accepts and
      maps back to the same segments. */
  lemma DecodedPathRoundTrip(path: Bytes, utf8: Bytes -> bool)
    requires DecodeUriRelativePath(path, utf8).Some?
    ensures var segments := DecodeUriRelativePath(path, utf8).value;
      ValidateRelativePath(JoinWith(segments, SLASH)) == Some(segments)
  {
    DecodedSegmentsAreSafe(path, utf8);
    var segments, parts := DecodeUriRelativePath(path, utf8).value, SplitOn(path, SLASH);
    TotalShorter(segments, parts);
    JoinLength(segments);
    JoinLength(parts);
    JoinSplit(path, SLASH);
    ValidatesSafeSegments(segments);
  }

  lemma ValidatesSafeSegments(segments: seq<Bytes>)
    requires segments != [] && |JoinWith(segments, SLASH)| <= MAX_RELATIVE_PATH_BYTES
    requires forall i :: 0 <= i < |segments| ==> SafeSegment(segments[i])
    ensures ValidateRelativePath(JoinWith(segments, SLASH)) == Some(segments)
  {
    SafeHasNoSlash(segments);
    SplitJoin(segments, SLASH);
    JoinLength(segments);
    CollectExact(segments, ValidatedSegment);
    assert Collect(segments, ValidatedSegment).value == segments;
    assert |segments[0]| >= 1;
  }

  /** The plain validation accepts exactly the joins of safe segments that are short
      enough. */
  lemma ValidatesExactlySafePaths(path: Bytes, segments: seq<Bytes>)
    ensures ValidateRelativePath(path) == Some(segments)
       <==> && segments != [] && |path| <= MAX_RELATIVE_PATH_BYTES && path == JoinWith(segments, SLASH)
            && forall i :: 0 <= i < |segments| ==> SafeSegment(segments[i])
  {
    if ValidateRelativePath(path) == Some(segments) {
      CollectExact(SplitOn(path, SLASH), ValidatedSegment);
      JoinSplit(path, SLASH);
      assert SplitOn(path, SLASH) == segments;
    }
    if segments != [] && |path| <= MAX_RELATIVE_PATH_BYTES && path == JoinWith(segments, SLASH)
       && forall i :: 0 <= i < |segments| ==> SafeSegment(segments[i]) {
      ValidatesSafeSegments(segments);
    }
  }
}
