/**
  Ranges and streaming of the file server (src/file_server.rs): which part of a file a
  request selects, in which representation, and how it is cut into chunks.

  The file does not change while it is read.  `Option<nat>` limits say how many chunks
  the receiving side takes before it goes away, if it does.
*/
module FileStreaming {
  import opened Bags
  import opened Text
  import opened Negotiation

  const U64 := 0x1_0000_0000_0000_0000

  type Bytes = seq<nat>

  // ------------------------------------------------------------------- ranges

  datatype Selection = Ignore | Unsatisfiable | Range(start: nat, end: nat)

  predicate AllDigits(s: string) { s != "" && forall i :: 0 <= i < |s| ==> IsDigit(s[i]) }

  /** `str::parse::<u64>` of the standard library: digits, with an optional plus sign. */
  function ParseU64(s: string): Option<nat> {
    var digits := if s != "" && s[0] == '+' then s[1..] else s;
    if AllDigits(digits) && Decimal(digits) < U64 then Some(Decimal(digits)) else None
  }

  const UNIT := "bytes="

  function RangeOf(first: string, last: string, length: nat): Selection {
    if first == "" then
      var suffix := ParseU64(last);
      if suffix.None? then Ignore
      else if suffix.value == 0 || length == 0 then Unsatisfiable
      else Range(if suffix.value >= length then 0 else length - suffix.value, length - 1)
    else
      var start := ParseU64(first);
      if start.None? then Ignore
      else if start.value >= length then Unsatisfiable
      else if last == "" then Range(start.value, length - 1)
      else
        var end := ParseU64(last);
        if end.None? || start.value > end.value then Ignore
        else Range(start.value, if end.value <= length - 1 then end.value else length - 1)
  }

  /** The two numbers of a single Range line, as text. */
  function RangeLine(values: seq<string>): Option<(string, string)> {
    if |values| != 1 || !Readable(values[0]) || !(UNIT <= values[0]) then None
    else
      var spec := values[0][|UNIT|..];
      if ',' in spec then None else SplitOnce(spec, '-')
  }

  /** `parse_range`; `values` are the values of the Range lines. */
  function ParseRange(values: seq<string>, length: nat): (r: Selection)
    ensures values == [] ==> r == Ignore
    ensures r.Range? ==> r.start <= r.end < length
  {
    var line := RangeLine(values);
    if line.None? then Ignore else RangeOf(line.value.0, line.value.1, length)
  }

  /** A header line of the form that is looked at: one unit, one pair, one hyphen apart. */
  predicate IsRangeLine(value: string, first: string, last: string) {
    value == UNIT + first + "-" + last && '-' !in first && ',' !in first && ',' !in last && Readable(value)
  }

  lemma RangeLineRead(value: string, first: string, last: string)
    requires IsRangeLine(value, first, last)
    ensures RangeLine([value]) == Some((first, last))
  {
    var spec := first + ['-'] + last;
    assert value == UNIT + spec;
    assert value[|UNIT|..] == spec;
    IndexAfter(first, last, '-');
    assert spec[..|first|] == first && spec[|first| + 1..] == last;
  }

  lemma OnlyRangeLinesRead(value: string, first: string, last: string)
    requires RangeLine([value]) == Some((first, last))
    ensures IsRangeLine(value, first, last)
  {
    var spec := value[|UNIT|..];
    assert spec == first + "-" + last;
    assert value == UNIT + spec;
  }

  /** Exactly a single line of that form is looked at. */
  lemma RangeLineExact(values: seq<string>, first: string, last: string)
    ensures RangeLine(values) == Some((first, last)) <==> |values| == 1 && IsRangeLine(values[0], first, last)
  {
    if |values| == 1 {
      assert values == [values[0]];
      if IsRangeLine(values[0], first, last) {
        RangeLineRead(values[0], first, last);
      }
      if RangeLine(values) == Some((first, last)) {
        OnlyRangeLinesRead(values[0], first, last);
      }
    }
  }

  /** The decimal numbers of section 14.1.1 of RFC 9110 that fit 64 bits. */
  predicate IsPosition(s: string) { AllDigits(s) && Decimal(s) < U64 }

  lemma PositionParses(s: string)
    requires IsPosition(s)
    ensures ParseU64(s) == Some(Decimal(s))
  {
    assert IsDigit(s[0]);
  }

  /** An integer range of section 14.1.2 of RFC 9110 selects its positions, cut at the
      end of the file; it is unsatisfiable exactly if it starts past the end. */
  lemma IntegerRangeSelects(first: string, last: string, length: nat)
    requires IsPosition(first) && (last == "" || (IsPosition(last) && Decimal(first) <= Decimal(last)))
    ensures forall i: nat ::
      (Selects(RangeOf(first, last, length), i)
       <==> Decimal(first) <= i < length && (last == "" || i <= Decimal(last)))
    ensures RangeOf(first, last, length) == Unsatisfiable <==> Decimal(first) >= length
  {
    PositionParses(first);
    if last != "" {
      PositionParses(last);
    }
  }

  /** A suffix range selects the last positions of the file, as many as there are; it is
      unsatisfiable exactly if that is none. */
  lemma SuffixRangeSelects(last: string, length: nat)
    requires IsPosition(last)
    ensures forall i: nat :: Selects(RangeOf("", last, length), i) <==> i < length <= i + Decimal(last)
    ensures RangeOf("", last, length) == Unsatisfiable <==> Decimal(last) == 0 || length == 0
  {
    PositionParses(last);
  }

  predicate Selects(r: Selection, i: nat) { r.Range? && r.start <= i <= r.end }

  /** A range of section 14.1.1 of RFC 9110: a suffix range, or an integer range whose last
      position, if it has one, is not before the first. */
  predicate InGrammar(first: string, last: string) {
    if first == "" then AllDigits(last) else AllDigits(first) && !BadLast(first, last)
  }

  predicate BadLast(first: string, last: string)
    requires AllDigits(first)
  {
    last != "" && (!AllDigits(last) || Decimal(first) > Decimal(last))
  }

  /** The positions that a range of the grammar means. */
  predicate Means(first: string, last: string, length: nat, i: nat)
    requires InGrammar(first, last)
  {
    i < length
    && if first == "" then length <= i + Decimal(last)
       else Decimal(first) <= i && (last == "" || i <= Decimal(last))
  }

  predicate HasPlus(s: string) { s != "" && s[0] == '+' }

  predicate StartsPastEnd(first: string, length: nat) { IsPosition(first) && Decimal(first) >= length }

  function Unsigned(s: string): string { if HasPlus(s) then s[1..] else s }

  /** The pairs that are not ignored, number by number as they are read. */
  lemma SelectsExactly(first: string, last: string, length: nat)
    ensures RangeOf(first, last, length) != Ignore <==>
      if first == "" then IsPosition(Unsigned(last))
      else
        && IsPosition(Unsigned(first))
        && (Decimal(Unsigned(first)) < length && last != "" ==>
              IsPosition(Unsigned(last)) && Decimal(Unsigned(first)) <= Decimal(Unsigned(last)))
  {
  }

  lemma PlusIsNoDigit(s: string)
    requires HasPlus(s)
    ensures !AllDigits(s)
  {
    assert !IsDigit(s[0]);
  }

  /** A pair that is not ignored is outside the grammar exactly if it has a plus sign, or
      starts past the end of the file, where the last position is not looked at, and that
      is missing its form or its order. */
  lemma TakenOutsideGrammar(first: string, last: string, length: nat)
    requires RangeOf(first, last, length) != Ignore
    ensures !InGrammar(first, last) <==>
      HasPlus(first) || HasPlus(last) || (StartsPastEnd(first, length) && BadLast(first, last))
  {
    SelectsExactly(first, last, length);
    if HasPlus(first) { PlusIsNoDigit(first); }
    if HasPlus(last) { PlusIsNoDigit(last); }
  }

  /** A range of the grammar is ignored exactly if a number that has to be read does not fit
      64 bits. */
  lemma GrammarIgnored(first: string, last: string, length: nat)
    requires InGrammar(first, last)
    ensures RangeOf(first, last, length) == Ignore <==>
      if first == "" then Decimal(last) >= U64
      else Decimal(first) >= U64 || (Decimal(first) < length && last != "" && Decimal(last) >= U64)
  {
    SelectsExactly(first, last, length);
    if HasPlus(first) { PlusIsNoDigit(first); }
    if HasPlus(last) { PlusIsNoDigit(last); }
  }

  /** Any other range of the grammar selects the positions it means, and is unsatisfiable
      exactly if it means none. */
  lemma GrammarSelects(first: string, last: string, length: nat)
    requires InGrammar(first, last) && RangeOf(first, last, length) != Ignore
    ensures forall i: nat :: Selects(RangeOf(first, last, length), i) <==> Means(first, last, length, i)
    ensures RangeOf(first, last, length) == Unsatisfiable <==> forall i: nat :: !Means(first, last, length, i)
  {
    GrammarIgnored(first, last, length);
    SelectsExactly(first, last, length);
    if HasPlus(first) { PlusIsNoDigit(first); }
    if HasPlus(last) { PlusIsNoDigit(last); }
    var r := RangeOf(first, last, length);
    if r.Range? {
      assert Means(first, last, length, r.start);
    }
  }

  /** A Range line of the grammar selects the positions its text means, and is unsatisfiable
      exactly if it means none; it is ignored exactly if a number that has to be read does not
      fit 64 bits. */
  lemma RangeHeaderSelects(value: string, first: string, last: string, length: nat)
    requires IsRangeLine(value, first, last) && InGrammar(first, last)
    ensures ParseRange([value], length) == Ignore <==>
      if first == "" then Decimal(last) >= U64
      else Decimal(first) >= U64 || (Decimal(first) < length && last != "" && Decimal(last) >= U64)
    ensures ParseRange([value], length) != Ignore ==>
      && (forall i: nat :: Selects(ParseRange([value], length), i) <==> Means(first, last, length, i))
      && (ParseRange([value], length) == Unsatisfiable <==> forall i: nat :: !Means(first, last, length, i))
  {
    RangeLineRead(value, first, last);
    GrammarIgnored(first, last, length);
    if RangeOf(first, last, length) != Ignore {
      GrammarSelects(first, last, length);
    }
  }

  /** Only a single line of that form can select anything or be refused. */
  lemma OnlyRangeLinesSelect(values: seq<string>, length: nat) returns (first: string, last: string)
    requires ParseRange(values, length) != Ignore
    ensures |values| == 1 && IsRangeLine(values[0], first, last)
    ensures ParseRange(values, length) == RangeOf(first, last, length)
  {
    first, last := RangeLine(values).value.0, RangeLine(values).value.1;
    RangeLineExact(values, first, last);
  }

  /** The grammar has no plus sign, the parser takes one. */
  lemma PlusSignIsTaken()
    ensures !InGrammar("+0", "") && RangeOf("+0", "", 10) == Range(0, 9)
  {
    assert !IsDigit("+0"[0]);
    assert "+0"[1..] == "0";
    assert IsDigit("0"[0]);
    assert "0"[..0] == "";
    assert Decimal("0") == 10 * Decimal("0"[..0]) + 0;
  }

  /** Past the end anything goes for the last position: no digits, or too small a number. */
  lemma PastEndIsNotRead(last: string)
    ensures RangeOf("20", last, 10) == Unsatisfiable
    ensures !InGrammar("20", "abc") && !InGrammar("20", "3")
  {
    Twenty();
    PositionParses("20");
    assert !IsDigit("abc"[0]);
    assert "3"[..0] == "" && Decimal("3") == 10 * Decimal("3"[..0]) + 3;
  }

  lemma Twenty()
    ensures IsPosition("20") && Decimal("20") == 20
  {
    assert IsDigit("20"[0]) && IsDigit("20"[1]);
    assert "20"[..1] == "2" && "2"[..0] == "";
    assert Decimal("2") == 10 * Decimal("2"[..0]) + 2;
    assert Decimal("20") == 10 * Decimal("20"[..1]) + 0;
  }

  // ---------------------------------------------------------------- selection

  /** What the response carries. */
  datatype Prepared =
    | NoBody(status: nat)
    | WithBody(status: nat, start: nat, length: nat, coding: Option<Coding>, announced: Option<nat>)

  /** What the request asks for: the Range lines, whether the response may be coded at
      all, the preferred coding, the outcome of its preconditions, whether If-Range
      lets a range through, and whether it is a HEAD request. */
  datatype Asked = Asked(ranges: seq<string>, compressible: bool, preferred: Option<Coding>,
                         precondition: Option<nat>, ifRangeAllows: bool, head: bool)

  function CodingFor(a: Asked): Option<Coding> {
    if a.ranges == [] && a.compressible then a.preferred else None
  }

  /** The selection part of `prepare_and_stream`. */
  function Prepare(a: Asked, length: nat): (p: Prepared)
    ensures a.precondition.Some? ==> p == NoBody(a.precondition.value)
    ensures a.precondition.None? ==>
      (p == NoBody(416) <==> a.ifRangeAllows && ParseRange(a.ranges, length).Unsatisfiable?)
    ensures a.precondition.None? && !(a.ifRangeAllows && ParseRange(a.ranges, length).Unsatisfiable?) ==>
      && p.status == (if a.ifRangeAllows && ParseRange(a.ranges, length).Range? then 206 else 200)
      && (p.WithBody? <==> !a.head && length > 0)
    ensures p.WithBody? ==> p.coding == if a.ranges == [] && a.compressible then a.preferred else None
    ensures p.WithBody? ==>
      && p.length > 0 && p.start + p.length <= length && !a.head
      && (p.coding.Some? ==> p.status == 200 && p.start == 0 && p.length == length && p.announced == None)
      && (p.coding.None? ==> p.announced == Some(p.length))
      && (p.status == 206 <==> a.ifRangeAllows && ParseRange(a.ranges, length).Range?)
      && (p.status == 206 ==> p.coding.None? && ParseRange(a.ranges, length) == Range(p.start, p.start + p.length - 1))
      && (p.status != 206 ==> p.status == 200 && p.start == 0 && p.length == length)
  {
    var coding := CodingFor(a);
    if a.precondition.Some? then NoBody(a.precondition.value)
    else
      var selected := if a.ifRangeAllows then ParseRange(a.ranges, length) else Ignore;
      if selected.Unsatisfiable? then NoBody(416)
      else
        var (status, start, size) :=
          if selected.Range? then (206, selected.start, selected.end - selected.start + 1) else (200, 0, length);
        if a.head || size == 0 then NoBody(status)
        else WithBody(status, start, size, coding, if coding.None? then Some(size) else None)
  }

  // ---------------------------------------------------------------- streaming

  predicate Sized(chunks: seq<Bytes>, limit: nat) {
    forall i :: 0 <= i < |chunks| ==> 0 < |chunks[i]| <= limit
  }

  /** The chunks that the receiver takes can hold that much. */
  predicate Suffices(limit: Option<nat>, chunkBytes: nat, length: nat) {
    limit.None? || limit.value * chunkBytes >= length
  }

  lemma MoreHoldsMore(a: nat, b: nat, size: nat)
    requires a <= b
    ensures a * size <= b * size
  {
  }

  predicate Takes(limit: Option<nat>, sent: nat) { limit.None? || sent < limit.value }

  function Least(a: nat, b: nat): nat { if a <= b then a else b }

  /** The chunks are the file from `start` to `position`, and all but the last are full. */
  ghost predicate CopiedTo(file: Bytes, start: nat, position: nat, chunks: seq<Bytes>, chunkBytes: nat) {
    && start <= position && (chunks == [] <==> position == start)
    && (chunks != [] ==> position <= |file| && Flat(chunks) == file[start..position])
    && Sized(chunks, chunkBytes) && (forall i :: 0 <= i < |chunks| - 1 ==> |chunks[i]| == chunkBytes)
  }

  lemma CopyOne(file: Bytes, start: nat, position: nat, chunks: seq<Bytes>, chunkBytes: nat, next: nat)
    requires CopiedTo(file, start, position, chunks, chunkBytes)
    requires chunks != [] ==> |chunks[|chunks| - 1]| == chunkBytes
    requires 0 < next <= chunkBytes && position + next <= |file|
    ensures CopiedTo(file, start, position + next, chunks + [file[position..position + next]], chunkBytes)
  {
    FlatOne(chunks, file[position..position + next]);
    if chunks != [] {
      assert file[start..position + next] == file[start..position] + file[position..position + next];
    }
  }

  lemma CopiedPrefix(file: Bytes, start: nat, position: nat, chunks: seq<Bytes>, chunkBytes: nat)
    requires CopiedTo(file, start, position, chunks, chunkBytes)
    ensures if start <= |file| then Flat(chunks) <= file[start..] else chunks == []
  {
    if chunks != [] {
      assert file[start..position] <= file[start..];
    }
  }

  /** `copy_file` into a channel, from position `start`: it succeeds exactly if the file
      has the bytes and the receiver stays, and then the chunks are those bytes.  Otherwise
      they are the bytes before the chunk that the file or the receiver did not have. */
  method CopyFile(file: Bytes, start: nat, length: nat, chunkBytes: nat, limit: Option<nat>)
    returns (ok: bool, chunks: seq<Bytes>)
    requires chunkBytes > 0
    ensures Sized(chunks, chunkBytes)
    ensures forall i :: 0 <= i < |chunks| - 1 ==> |chunks[i]| == chunkBytes
    ensures ok <==> length == 0 || (start + length <= |file| && Suffices(limit, chunkBytes, length))
    ensures ok && length > 0 ==> Flat(chunks) == file[start..start + length]
    ensures ok && length == 0 ==> chunks == []
    ensures if start <= |file| then Flat(chunks) <= file[start..] else chunks == []
    ensures !ok ==> limit == Some(|chunks|) || start + Least(length, (|chunks| + 1) * chunkBytes) > |file|
  {
    var remaining, position := length, start;
    chunks := [];
    while remaining > 0
      invariant position + remaining == start + length && remaining >= 0
      invariant CopiedTo(file, start, position, chunks, chunkBytes)
      invariant remaining > 0 && chunks != [] ==> |chunks[|chunks| - 1]| == chunkBytes
      invariant position - start <= |chunks| * chunkBytes
      invariant remaining > 0 ==> position - start == |chunks| * chunkBytes
      invariant limit.Some? ==> |chunks| <= limit.value
    {
      CopiedPrefix(file, start, position, chunks, chunkBytes);
      var next := if remaining <= chunkBytes then remaining else chunkBytes;
      assert (|chunks| + 1) * chunkBytes == |chunks| * chunkBytes + chunkBytes;
      assert position + next == start + Least(length, (|chunks| + 1) * chunkBytes);
      if position + next > |file| {
        return false, chunks;
      }
      var buffer := file[position..position + next];
      remaining := remaining - next;
      if !Takes(limit, |chunks|) {
        MoreHoldsMore(limit.value, |chunks|, chunkBytes);
        return false, chunks;
      }
      CopyOne(file, start, position, chunks, chunkBytes, next);
      chunks := chunks + [buffer];
      position := position + next;
    }
    CopiedPrefix(file, start, position, chunks, chunkBytes);
    if limit.Some? { MoreHoldsMore(|chunks|, limit.value, chunkBytes); }
    ok := true;
  }

  /** `remaining` of a `FileBody` after it passed on these chunks. */
  function Remaining(announced: nat, chunks: seq<Bytes>): nat {
    if chunks == [] then announced
    else
      var before := Remaining(announced, chunks[..|chunks| - 1]);
      if before >= |chunks[|chunks| - 1]| then before - |chunks[|chunks| - 1]| else 0
  }

  lemma {:induction false} RemainingCounts(announced: nat, chunks: seq<Bytes>)
    requires |Flat(chunks)| <= announced
    ensures Remaining(announced, chunks) == announced - |Flat(chunks)|
    decreases |chunks|
  {
    if chunks != [] {
      RemainingCounts(announced, chunks[..|chunks| - 1]);
    }
  }

  lemma {:induction false} FlatTake(chunks: seq<Bytes>, j: nat, limit: nat)
    requires j <= |chunks| && Sized(chunks, limit)
    ensures |Flat(chunks[..j])| <= |Flat(chunks)|
    ensures |Flat(chunks[..j])| == |Flat(chunks)| <==> j == |chunks|
    decreases |chunks|
  {
    if j < |chunks| {
      var front := chunks[..|chunks| - 1];
      FlatTake(front, j, limit);
      assert front[..j] == chunks[..j];
    } else {
      assert chunks[..j] == chunks;
    }
  }

  /** The body knows its end exactly at the last chunk. */
  lemma EndsAtTheLastChunk(chunks: seq<Bytes>, j: nat, limit: nat)
    requires j <= |chunks| && Sized(chunks, limit)
    ensures Remaining(|Flat(chunks)|, chunks[..j]) == 0 <==> j == |chunks|
  {
    FlatTake(chunks, j, limit);
    RemainingCounts(|Flat(chunks)|, chunks[..j]);
  }

  /** A part of the file, as an identity response sends it: its bytes, and the counter of the
      body is zero exactly after the last chunk. */
  method StreamPart(file: Bytes, start: nat, length: nat, chunkBytes: nat) returns (chunks: seq<Bytes>)
    requires chunkBytes > 0 && length > 0 && start + length <= |file|
    ensures Flat(chunks) == file[start..start + length] && Sized(chunks, chunkBytes)
    ensures forall j :: 0 <= j <= |chunks| ==> (Remaining(length, chunks[..j]) == 0 <==> j == |chunks|)
  {
    var ok;
    ok, chunks := CopyFile(file, start, length, chunkBytes, None);
    forall j: nat | j <= |chunks| ensures Remaining(length, chunks[..j]) == 0 <==> j == |chunks| {
      EndsAtTheLastChunk(chunks, j, chunkBytes);
    }
  }

  /** An identity response sends exactly the selected part of the file. */
  method StreamSelected(a: Asked, file: Bytes, chunkBytes: nat) returns (p: Prepared, chunks: seq<Bytes>)
    requires chunkBytes > 0
    ensures p == Prepare(a, |file|)
    ensures p.WithBody? && p.coding.None? ==>
      && Flat(chunks) == file[p.start..p.start + p.length]
      && Sized(chunks, chunkBytes)
      && forall j :: 0 <= j <= |chunks| ==> (Remaining(p.announced.value, chunks[..j]) == 0 <==> j == |chunks|)
  {
    p := Prepare(a, |file|);
    chunks := [];
    if p.WithBody? && p.coding.None? {
      chunks := StreamPart(file, p.start, p.length, chunkBytes);
    }
  }

  // -------------------------------------------------------------- chunk writer

  /** How many chunks of `size` get full. */
  function FullChunks(total: nat, size: nat): nat
    requires size > 0
  {
    if total < size then 0 else 1 + FullChunks(total - size, size)
  }

  /** `ChunkWriter`; `sent` is what went into the channel, `limit` what it takes. */
  class ChunkWriter {
    const chunkBytes: nat
    const limit: Option<nat>
    var buffer: Bytes
    var sent: seq<Bytes>

    /** Everything written so far, while no send has failed. */
    function Written(): Bytes
      reads this
    {
      Flat(sent) + buffer
    }

    predicate Valid()
      reads this
    {
      chunkBytes > 0 && |buffer| < chunkBytes && Sized(sent, chunkBytes)
    }

    constructor (chunkBytes: nat, limit: Option<nat>)
      requires chunkBytes > 0
      ensures Valid() && Written() == [] && this.chunkBytes == chunkBytes && this.limit == limit
    {
      this.chunkBytes := chunkBytes;
      this.limit := limit;
      buffer, sent := [], [];
    }

    /** `send_buffer`, `flush` and `finish`. */
    method SendBuffer() returns (ok: bool)
      requires chunkBytes > 0 && |buffer| <= chunkBytes && Sized(sent, chunkBytes)
      modifies this
      ensures Valid() && buffer == []
      ensures ok == (old(buffer) == [] || Takes(limit, old(|sent|)))
      ensures ok ==> Written() == old(Written())
      ensures sent == old(sent) + (if old(buffer) == [] || !ok then [] else [old(buffer)])
    {
      if buffer == [] {
        assert sent + [] == sent;
        return true;
      }
      var bytes := buffer;
      buffer := [];
      ok := Takes(limit, |sent|);
      if ok {
        FlatOne(sent, bytes);
        sent := sent + [bytes];
      } else {
        assert sent + [] == sent;
      }
    }

    /** Succeeds exactly if the receiver takes every chunk that gets full. */
    method Write(bytes: Bytes) returns (ok: bool)
      requires Valid()
      modifies this
      ensures Valid()
      ensures ok ==> Written() == old(Written()) + bytes
      ensures var full := FullChunks(old(|buffer|) + |bytes|, chunkBytes);
        ok <==> full == 0 || limit.None? || old(|sent|) + full <= limit.value
      ensures old(sent) <= sent
    {
      var rest := bytes;
      ghost var full, all := 0, FullChunks(|buffer| + |bytes|, chunkBytes);
      assert Written() + rest == old(Written()) + bytes;
      while rest != []
        invariant Valid() && old(sent) <= sent
        invariant Written() + rest == old(Written()) + bytes
        invariant |sent| == old(|sent|) + full && all == full + FullChunks(|buffer| + |rest|, chunkBytes)
        invariant full > 0 && limit.Some? ==> |sent| <= limit.value
      {
        var available := chunkBytes - |buffer|;
        var take := if available <= |rest| then available else |rest|;
        ghost var before, after := buffer, rest;
        buffer := buffer + rest[..take];
        rest := rest[take..];
        assert after == after[..take] + rest;
        assert Flat(sent) + buffer + rest == Flat(sent) + before + after;
        if |buffer| == chunkBytes {
          var sentOk := SendBuffer();
          if !sentOk {
            return false;
          }
          full := full + 1;
        }
      }
      ok := true;
    }
  }
}
