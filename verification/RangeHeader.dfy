/**
 The Range header of a download request (RFC 9110, sections 14.1.2 and 14.2): parsing it, and what the ranges mean.
 */
module RangeHeader {
  import opened Collections
  import opened Decimal
  import opened Text

  datatype ByteRange = ByteRange(start: int, end: int)

  predicate AsciiSpace(c: char) {
    c == ' ' || c == '\t' || c == '\n' || c == '\r'
  }

  function TrimAscii(s: string): string {
    Trim(s, AsciiSpace)
  }

  /** Equal to "bytes" under Unicode case folding, which also identifies the long s with s. */
  predicate IsBytes(unit: string) {
    && |unit| == 5 && unit[0] in {'b', 'B'} && unit[1] in {'y', 'Y'} && unit[2] in {'t', 'T'} && unit[3] in {'e', 'E'}
    && unit[4] in {'s', 'S', '\U{017F}'}
  }

  function LowerAscii(c: char): char {
    if 'A' <= c <= 'Z' then ((c as int + 32) as char) else c
  }

  /** The unit is "bytes" in whatever case, and, as code points fold, with the long s as well; nothing else. */
  lemma BytesInAnyCase(unit: string)
    ensures (|unit| == 5 && forall i :: 0 <= i < 5 ==> LowerAscii(unit[i]) == "bytes"[i]) ==> IsBytes(unit)
    ensures IsBytes(unit) ==> |unit| == 5 && forall i :: 0 <= i < 5 ==> LowerAscii(unit[i]) == "bytes"[i] || (i == 4 && unit[i] == '\U{017F}')
  {
    if |unit| == 5 && forall i :: 0 <= i < 5 ==> LowerAscii(unit[i]) == "bytes"[i] {
      assert LowerAscii(unit[0]) == 'b' && LowerAscii(unit[1]) == 'y' && LowerAscii(unit[2]) == 't' && LowerAscii(unit[3]) == 'e'
             && LowerAscii(unit[4]) == 's';
    }
  }

  // ---- what a part of the header asks for ----

  /** The forms of section 14.1.2: `first-`, `first-last` and `-suffix`. */
  datatype Spec = From(first: int) | Between(first: int, last: int) | Suffix(length: int)

  /** The form a part has, if it has one; positions are int64, with an optional plus sign. */
  function SpecOf(part: string): Option<Spec> {
    var cut := CutAt(TrimAscii(part), '-');
    var first, last := TrimAscii(cut.before), TrimAscii(cut.after);
    if !cut.found then None
    else if first == [] then
      var n := ParseInt64(last);
      if n.None? || n.value <= 0 then None else Some(Suffix(n.value))
    else
      var f := ParseInt64(first);
      if f.None? || f.value < 0 then None
      else if last == [] then Some(From(f.value))
      else
        var l := ParseInt64(last);
        if l.None? || l.value < f.value then None else Some(Between(f.value, l.value))
  }

  /** The byte positions that a part selects of a representation of the given size. */
  predicate Selects(spec: Spec, size: int, x: int) {
    0 <= x < size &&
    match spec
    case From(first) => first <= x
    case Between(first, last) => first <= x <= last
    case Suffix(length) => size - length <= x
  }

  ghost predicate Satisfiable(spec: Spec, size: int) {
    exists x :: Selects(spec, size, x)
  }

  /** Where the code is more lenient than the grammar: a first position past the end, whatever follows the dash. */
  predicate PastEnd(part: string, size: int) {
    var cut := CutAt(TrimAscii(part), '-');
    cut.found && TrimAscii(cut.before) != [] &&
    (var f := ParseInt64(TrimAscii(cut.before));
     f.Some? && f.value >= size && f.value >= 0)
  }

  // ---- the parser ----

  datatype Part = Malformed | Unsatisfiable | Range(range: ByteRange)

  /** One round of the loop of `parseDownloadRanges`. */
  function ParsePart(raw: string, size: int): Part {
    var part := TrimAscii(raw);
    if part == [] then Malformed
    else
      var cut := CutAt(part, '-');
      var first, last := TrimAscii(cut.before), TrimAscii(cut.after);
      if !cut.found then Malformed
      else if first == [] then
        var n := ParseInt64(last);
        if n.None? || n.value <= 0 then Malformed
        else
          var suffix := if n.value > size then size else n.value;
          if suffix == 0 then Unsatisfiable else Range(ByteRange(size - suffix, size - 1))
      else
        var start := ParseInt64(first);
        if start.None? || start.value < 0 then Malformed
        else if start.value >= size then Unsatisfiable
        else if last == [] then Range(ByteRange(start.value, size - 1))
        else
          var end := ParseInt64(last);
          if end.None? || end.value < start.value then Malformed
          else Range(ByteRange(start.value, if end.value >= size then size - 1 else end.value))
  }

  /** A parsed part means what its form means; it is malformed without a form, unless its first position is past the end. */
  lemma PartMeans(raw: string, size: int)
    requires 0 <= size
    ensures var p, spec := ParsePart(raw, size), SpecOf(raw);
            && (p.Malformed? <==> spec.None? && !PastEnd(raw, size))
            && (p.Unsatisfiable? <==> PastEnd(raw, size) || (spec.Some? && !Satisfiable(spec.value, size)))
            && (p.Range? ==> && spec.Some? && 0 <= p.range.start <= p.range.end < size
                             && forall x :: Selects(spec.value, size, x) <==> p.range.start <= x <= p.range.end)
  {
    hide ParseInt64, CutAt, Trim;
    NothingToCut();
    var p, spec := ParsePart(raw, size), SpecOf(raw);
    if p.Range? {
      assert Selects(spec.value, size, p.range.start);
    }
  }

  lemma NothingToCut()
    ensures !CutAt([], '-').found
  {
  }

  /** The ranges of the parts that select anything, in order. */
  function Ranges(parts: seq<string>, size: int): seq<ByteRange> {
    if parts == [] then []
    else
      var p := ParsePart(parts[|parts| - 1], size);
      Ranges(parts[..|parts| - 1], size) + (if p.Range? then [p.range] else [])
  }

  predicate AnyMalformed(parts: seq<string>, size: int) {
    exists i :: 0 <= i < |parts| && ParsePart(parts[i], size).Malformed?
  }

  predicate AnyRange(parts: seq<string>, size: int) {
    exists i :: 0 <= i < |parts| && ParsePart(parts[i], size).Range?
  }

  datatype Parsed = Whole | Selected(ranges: seq<ByteRange>) | NoOverlap | BadLength | BadUnit | BadRange

  lemma {:induction false} RangesEmpty(parts: seq<string>, size: int)
    ensures Ranges(parts, size) == [] <==> !AnyRange(parts, size)
  {
    hide ParsePart;
    if parts != [] {
      var init := parts[..|parts| - 1];
      RangesEmpty(init, size);
      if i :| 0 <= i < |init| && ParsePart(init[i], size).Range? {
        assert ParsePart(parts[i], size).Range?;
      }
    }
  }

  /**
   `parseDownloadRanges`. No overlap (a 416 answer) is reported exactly when no part is malformed and none selects a
   byte; otherwise the ranges are those of the satisfiable parts, in order.
   */
  method ParseRanges(header: string, size: int) returns (r: Parsed)
    ensures r.BadLength? <==> size < 0
    ensures r.Whole? <==> 0 <= size && TrimSpace(header) == []
    ensures var cut := CutAt(header, '=');
            var usable := cut.found && IsBytes(TrimSpace(cut.before));
            var parts := Split(cut.after, ',');
            0 <= size && TrimSpace(header) != [] ==>
              && (r.BadUnit? <==> !usable)
              && (r.BadRange? <==> usable && AnyMalformed(parts, size))
              && (r.NoOverlap? <==> usable && !AnyMalformed(parts, size) && !AnyRange(parts, size))
              && (r.Selected? ==> r.ranges == Ranges(parts, size) && r.ranges != [])
  {
    hide Split, CutAt, Trim, IsBytes, AnyMalformed, AnyRange, Ranges;
    if size < 0 {
      return BadLength;
    }
    if TrimSpace(header) == [] {
      return Whole;
    }
    var cut := CutAt(header, '=');
    if !cut.found || !IsBytes(TrimSpace(cut.before)) {
      return BadUnit;
    }
    r := ParseParts(Split(cut.after, ','), size);
  }

  /** The loop over the parts. */
  method ParseParts(parts: seq<string>, size: int) returns (r: Parsed)
    requires parts != []
    ensures r.BadRange? || r.NoOverlap? || r.Selected?
    ensures r.BadRange? <==> AnyMalformed(parts, size)
    ensures r.NoOverlap? <==> !AnyMalformed(parts, size) && !AnyRange(parts, size)
    ensures r.Selected? ==> r.ranges == Ranges(parts, size) && r.ranges != []
  {
    hide ParsePart;
    var ranges: seq<ByteRange> := [];
    var noOverlap := false;
    for i := 0 to |parts|
      invariant forall k :: 0 <= k < i ==> !ParsePart(parts[k], size).Malformed?
      invariant ranges == Ranges(parts[..i], size)
      invariant noOverlap || ranges != [] || i == 0
    {
      var p := ParsePart(parts[i], size);
      assert parts[..i + 1][..i] == parts[..i];
      match p {
        case Malformed => return BadRange;
        case Unsatisfiable => noOverlap := true;
        case Range(range) => ranges := ranges + [range];
      }
    }
    assert parts[..|parts|] == parts;
    RangesEmpty(parts, size);
    if noOverlap && |ranges| == 0 {
      return NoOverlap;
    }
    return Selected(ranges);
  }

  /** Every range that comes out lies inside the file and is what some part of the header selects. */
  lemma {:induction false} RangesAreSelected(parts: seq<string>, size: int, k: nat)
    requires 0 <= size && k < |Ranges(parts, size)|
    ensures var r := Ranges(parts, size)[k];
            && 0 <= r.start <= r.end < size
            && exists i :: 0 <= i < |parts| && SpecOf(parts[i]).Some?
                           && forall x :: Selects(SpecOf(parts[i]).value, size, x) <==> r.start <= x <= r.end
  {
    var n := |parts| - 1;
    var init := parts[..n];
    hide ParsePart, SpecOf, Selects;
    if k < |Ranges(init, size)| {
      RangesAreSelected(init, size, k);
      assert forall i :: 0 <= i < n ==> init[i] == parts[i];
    } else {
      PartMeans(parts[n], size);
    }
  }

  // ---- rendering and reading back ----

  predicate Inside(r: ByteRange, size: int) {
    0 <= r.start <= r.end < size <= MAX_INT64
  }

  function RenderRange(r: ByteRange): string {
    FormatInt(r.start) + "-" + FormatInt(r.end)
  }

  function RenderAll(ranges: seq<ByteRange>): seq<string> {
    seq(|ranges|, i requires 0 <= i < |ranges| => RenderRange(ranges[i]))
  }

  function Render(ranges: seq<ByteRange>): string {
    "bytes=" + Join(RenderAll(ranges), ',')
  }

  lemma DigitsHold(s: string)
    requires s != [] && AllDigits(s)
    ensures '-' !in s && ',' !in s && TrimAscii(s) == s
  {
    assert IsDigit(s[0]) && IsDigit(s[|s| - 1]);
    TrimKeeps(s, AsciiSpace);
  }

  lemma RenderedPart(r: ByteRange, size: int)
    requires Inside(r, size)
    ensures ParsePart(RenderRange(r), size) == Range(r) && ',' !in RenderRange(r)
  {
    hide Format, ParseInt64, CutAt, Trim, AllDigits;
    var first, last := Format(r.start), Format(r.end);
    DigitsHold(first);
    DigitsHold(last);
    ParseOfFormat(r.start);
    ParseOfFormat(r.end);
    DashedPart(first, last);
    assert RenderRange(r) == first + ['-'] + last;
  }

  lemma DashedPart(first: string, last: string)
    requires first != [] && last != [] && AllDigits(first) && AllDigits(last)
    ensures var text := first + ['-'] + last;
            && TrimAscii(text) == text && CutAt(text, '-') == Cut(first, last, true) && ',' !in text
  {
    var text := first + ['-'] + last;
    DigitsHold(first);
    DigitsHold(last);
    assert IsDigit(first[0]) && IsDigit(last[|last| - 1]);
    assert text[0] == first[0] && text[|text| - 1] == last[|last| - 1];
    hide CutAt, Trim, AllDigits;
    TrimKeeps(text, AsciiSpace);
    CutOfJoined(first, last, '-');
  }

  /** A last position that is no number has no form, but the code only sees that when the first position is inside the file. */
  lemma LenientPart(first: int, size: int)
    requires 0 <= size && 0 <= first <= MAX_INT64
    ensures var part := FormatInt(first) + "-x";
            SpecOf(part).None? && ParsePart(part, size) == if size <= first then Unsatisfiable else Malformed
  {
    var digits := Format(first);
    var part := digits + ['-'] + "x";
    assert IsDigit(digits[0]) && part[0] == digits[0] && part[|part| - 1] == 'x';
    assert FormatInt(first) + "-x" == part;
    DigitsHold(digits);
    hide CutAt, Trim, Format, ParseInt64;
    TrimKeeps(part, AsciiSpace);
    TrimKeeps("x", AsciiSpace);
    CutOfJoined(digits, "x", '-');
    ParseOfFormat(first);
  }

  lemma LenientExample()
    ensures ParsePart("900-x", 100).Unsatisfiable? && SpecOf("900-x").None?
  {
    assert FormatInt(900) == "900" by {
      assert Format(9) == "9";
      assert Format(90) == "90";
    }
    assert "900" + "-x" == "900-x";
    LenientPart(900, 100);
  }

  lemma {:induction false} RenderedRanges(ranges: seq<ByteRange>, size: int, n: nat)
    requires n <= |ranges| && forall i :: 0 <= i < |ranges| ==> Inside(ranges[i], size)
    ensures Ranges(RenderAll(ranges)[..n], size) == ranges[..n]
    ensures !AnyMalformed(RenderAll(ranges)[..n], size)
  {
    hide ParsePart, RenderRange;
    if n > 0 {
      RenderedRanges(ranges, size, n - 1);
      var parts := RenderAll(ranges)[..n];
      assert parts[..n - 1] == RenderAll(ranges)[..n - 1];
      RenderedPart(ranges[n - 1], size);
      forall i | 0 <= i < n ensures !ParsePart(parts[i], size).Malformed? {
        RenderedPart(ranges[i], size);
      }
    }
  }

  /** Rendering any ranges inside the file and parsing the header gives the same ranges back. */
  lemma RoundTrip(ranges: seq<ByteRange>, size: int)
    requires ranges != [] && forall i :: 0 <= i < |ranges| ==> Inside(ranges[i], size)
    ensures var cut := CutAt(Render(ranges), '=');
            && TrimSpace(Render(ranges)) != [] && cut.found && IsBytes(TrimSpace(cut.before))
            && !AnyMalformed(Split(cut.after, ','), size) && Ranges(Split(cut.after, ','), size) == ranges
  {
    var parts := RenderAll(ranges);
    var text := Join(parts, ',');
    forall i | 0 <= i < |parts| ensures ',' !in parts[i] {
      RenderedPart(ranges[i], size);
    }
    hide RenderRange, ParsePart, Ranges, Split, Join;
    SplitOfJoin(parts, ',');
    RenderedRanges(ranges, size, |ranges|);
    assert parts[..|ranges|] == parts && ranges[..|ranges|] == ranges;
    BytesHeader(text);
  }

  lemma BytesHeader(text: string)
    ensures CutAt("bytes=" + text, '=') == Cut("bytes", text, true)
    ensures IsBytes(TrimSpace("bytes")) && TrimSpace("bytes=" + text) != []
  {
    var s := "bytes=" + text;
    assert s == "bytes" + ['='] + text;
    CutOfJoined("bytes", text, '=');
    hide CutAt;
    TrimKeeps("bytes", IsSpace);
    TrimFront(s);
  }

  /** Text that starts with something other than white space does not trim to nothing. */
  lemma TrimFront(s: string)
    requires s != [] && !IsSpace(s[0])
    ensures TrimSpace(s) != []
  {
    TrimRightKeepsFirst(s);
  }

  lemma {:induction false} TrimRightKeepsFirst(s: string)
    requires s != [] && !IsSpace(s[0])
    ensures TrimRight(s, IsSpace) != []
  {
    if IsSpace(s[|s| - 1]) {
      TrimRightKeepsFirst(s[..|s| - 1]);
    }
  }

  // ---- the limit on the bytes of a multi-range answer ----

  function Length(r: ByteRange): int {
    r.end - r.start + 1
  }

  function Sum(ranges: seq<ByteRange>): int {
    if ranges == [] then 0 else Sum(ranges[..|ranges| - 1]) + Length(ranges[|ranges| - 1])
  }

  lemma {:induction false} SumGrows(ranges: seq<ByteRange>, k: nat)
    requires k <= |ranges| && forall i :: 0 <= i < |ranges| ==> 0 < Length(ranges[i])
    ensures Sum(ranges[..k]) <= Sum(ranges)
    decreases |ranges| - k
  {
    if k < |ranges| {
      SumGrows(ranges, k + 1);
      assert ranges[..k + 1][..k] == ranges[..k];
    } else {
      assert ranges[..k] == ranges;
    }
  }

  /** `downloadRangesSizeExceeds`: the running total never exceeds the size, so no number of ranges overflows it. */
  method SizeExceeds(ranges: seq<ByteRange>, size: int) returns (exceeds: bool)
    requires 0 <= size && forall i :: 0 <= i < |ranges| ==> 0 <= ranges[i].start <= ranges[i].end < size
    ensures exceeds <==> Sum(ranges) > size
  {
    var total := 0;
    for i := 0 to |ranges|
      invariant 0 <= total == Sum(ranges[..i]) <= size
    {
      var length := ranges[i].end - ranges[i].start + 1;
      assert ranges[..i + 1][..i] == ranges[..i];
      if length > size - total {
        SumGrows(ranges, i + 1);
        return true;
      }
      total := total + length;
    }
    assert ranges[..|ranges|] == ranges;
    return false;
  }
}
