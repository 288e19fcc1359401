/** Plain text documents: ranges that tile the stripped content, and when the
    recorded offsets also quote the original content. */
module PaperText {
  import opened PaperChunks

  datatype Range = Range(start: nat, end: nat)

  const FULL_STOP: char := '\U{3002}'

  /** The last position of c in text[lo..hi], or -1. */
  function LastIndex(text: string, c: char, lo: nat, hi: nat): (r: int)
    requires lo <= hi <= |text|
    ensures r == -1 || (lo <= r < hi && text[r] == c && forall i :: r < i < hi ==> text[i] != c)
    ensures r == -1 ==> forall i :: lo <= i < hi ==> text[i] != c
    decreases hi - lo
  {
    if lo == hi then -1 else if text[hi - 1] == c then hi - 1 else LastIndex(text, c, lo, hi - 1)
  }

  /** The end of the range that starts at start: the limit, or just after a late line or sentence end. */
  function RangeEnd(text: string, start: nat): (end: nat)
    requires start < |text|
    ensures start < end <= |text|
  {
    var limit := if |text| < start + MAX_TEXT then |text| else start + MAX_TEXT;
    if limit == |text| then limit
    else
      var newline, stop := LastIndex(text, '\n', start, limit), LastIndex(text, FULL_STOP, start, limit);
      var boundary := if newline < stop then stop else newline;
      if boundary > start + MAX_TEXT / 2 then boundary + 1 else limit
  }

  function Ranges(text: string, start: nat): seq<Range>
    decreases |text| - start
  {
    if start >= |text| then []
    else
      var end := RangeEnd(text, start);
      [Range(start, end)] + Ranges(text, end)
  }

  method FindEnd(text: string, start: nat) returns (end: nat)
    requires start < |text|
    ensures end == RangeEnd(text, start)
  {
    end := if |text| < start + MAX_TEXT then |text| else start + MAX_TEXT;
    if end < |text| {
      var newline := LastIndex(text, '\n', start, end);
      var stop := LastIndex(text, FULL_STOP, start, end);
      var boundary := if newline < stop then stop else newline;
      if boundary > start + MAX_TEXT / 2 {
        end := boundary + 1;
      }
    }
  }

  method SplitText(text: string) returns (ranges: seq<Range>)
    ensures ranges == Ranges(text, 0)
  {
    hide RangeEnd, LastIndex;
    ranges := [];
    var start := 0;
    while start < |text|
      invariant start <= |text| && ranges + Ranges(text, start) == Ranges(text, 0)
      decreases |text| - start
    {
      var end := FindEnd(text, start);
      ranges := ranges + [Range(start, end)];
      start := end;
    }
  }

  predicate IsBreak(c: char) { c == '\n' || c == FULL_STOP }

  /** The ranges run from start to the end of the text without gap or overlap. */
  ghost predicate Tiles(ranges: seq<Range>, start: nat, text: string) {
    && (forall i :: 0 <= i < |ranges| ==> ranges[i].start < ranges[i].end <= |text|)
    && (forall i :: 0 <= i < |ranges| - 1 ==> ranges[i].end == ranges[i + 1].start)
    && (if start >= |text| then ranges == []
        else ranges != [] && ranges[0].start == start && ranges[|ranges| - 1].end == |text|)
  }

  ghost predicate RangeBounded(r: Range, last: bool, text: string) {
    && 0 < r.end - r.start <= MAX_TEXT && r.end <= |text|
    && (!last ==> r.end - r.start > MAX_TEXT / 2)
    && (r.end - r.start < MAX_TEXT && r.end < |text| ==> IsBreak(text[r.end - 1]))
  }

  /** No range is too long; all but the last are over half the limit and end at the limit or after a break. */
  ghost predicate Bounded(ranges: seq<Range>, text: string) {
    forall i :: 0 <= i < |ranges| ==> RangeBounded(ranges[i], i == |ranges| - 1, text)
  }

  lemma TilesCons(r: Range, rest: seq<Range>, text: string)
    requires r.start < r.end <= |text| && Tiles(rest, r.end, text) && Bounded(rest, text)
    requires RangeBounded(r, r.end == |text|, text)
    ensures Tiles([r] + rest, r.start, text) && Bounded([r] + rest, text)
  {
    hide RangeBounded;
    var all := [r] + rest;
    forall i | 0 <= i < |all| ensures RangeBounded(all[i], i == |all| - 1, text) {
      if i > 0 { assert RangeBounded(rest[i - 1], i - 1 == |rest| - 1, text); }
    }
    forall i | 0 <= i < |all| - 1 ensures all[i].end == all[i + 1].start {
      if i > 0 { assert rest[i - 1].end == rest[i].start; }
    }
  }

  lemma {:induction false} RangesTile(text: string, start: nat)
    ensures Tiles(Ranges(text, start), start, text) && Bounded(Ranges(text, start), text)
    decreases |text| - start
  {
    hide RangeEnd, LastIndex, Tiles, Bounded, IsBreak;
    if start < |text| {
      var end := RangeEnd(text, start);
      RangesTile(text, end);
      EndFacts(text, start);
      TilesCons(Range(start, end), Ranges(text, end), text);
    } else {
      NoRanges(text, start);
    }
  }

  lemma NoRanges(text: string, start: nat)
    requires start >= |text|
    ensures Tiles([], start, text) && Bounded([], text)
  {
  }

  lemma EndFacts(text: string, start: nat)
    requires start < |text|
    ensures var end := RangeEnd(text, start);
      && end - start <= MAX_TEXT
      && (end < |text| ==> end - start > MAX_TEXT / 2)
      && (end - start < MAX_TEXT && end < |text| ==> IsBreak(text[end - 1]))
  {
  }

  function Slices(text: string, ranges: seq<Range>): string
    requires forall i :: 0 <= i < |ranges| ==> ranges[i].start <= ranges[i].end <= |text|
  {
    if ranges == [] then "" else text[ranges[0].start..ranges[0].end] + Slices(text, ranges[1..])
  }

  /** The chunk texts concatenate to the text. */
  lemma {:induction false} SlicesRebuild(text: string, start: nat)
    requires start <= |text|
    ensures forall i :: 0 <= i < |Ranges(text, start)| ==>
      Ranges(text, start)[i].start <= Ranges(text, start)[i].end <= |text|
    ensures Slices(text, Ranges(text, start)) == text[start..]
    decreases |text| - start
  {
    hide RangeEnd;
    if start < |text| {
      var end := RangeEnd(text, start);
      SlicesRebuild(text, end);
      assert Ranges(text, start)[1..] == Ranges(text, end);
      assert text[start..] == text[start..end] + text[end..];
    }
  }

  // ----- offsets into the original content -----

  lemma {:induction false} StripRightIsPrefix(text: string, space: char -> bool)
    ensures |StripRight(text, space)| <= |text| && StripRight(text, space) == text[..|StripRight(text, space)|]
  {
    if text != "" && space(text[|text| - 1]) {
      StripRightIsPrefix(text[..|text| - 1], space);
    }
  }

  lemma {:induction false} StripLeftIsSuffix(text: string, space: char -> bool)
    ensures |StripLeft(text, space)| <= |text|
    ensures StripLeft(text, space) != "" ==> !space(StripLeft(text, space)[0])
    ensures text != "" && !space(text[0]) ==> StripLeft(text, space) == text
  {
    if text != "" && space(text[0]) {
      StripLeftIsSuffix(text[1..], space);
    }
  }

  lemma PrefixSlice(text: string, n: nat, r: Range)
    requires r.start < r.end <= n <= |text|
    ensures text[r.start..r.end] == text[..n][r.start..r.end]
  {
  }

  /** Offsets are taken in the stripped text. They stay inside the original content, and quote the same
      text there exactly when the content does not begin with white space. */
  lemma OffsetsQuoteOriginalIff(content: string, space: char -> bool)
    requires Strip(content, space) != ""
    ensures var stripped := Strip(content, space);
      && |stripped| <= |content|
      && (forall r :: r in Ranges(stripped, 0) ==> r.start < r.end <= |stripped|)
      && ((forall r :: r in Ranges(stripped, 0) ==> content[r.start..r.end] == stripped[r.start..r.end])
          <==> !space(content[0]))
  {
    hide Ranges, StripLeft, StripRight;
    var stripped, left := Strip(content, space), StripLeft(content, space);
    StripLeftIsSuffix(content, space);
    StripRightIsPrefix(left, space);
    RangesTile(stripped, 0);
    var ranges := Ranges(stripped, 0);
    if !space(content[0]) {
      assert stripped == content[..|stripped|];
      forall r | r in ranges ensures content[r.start..r.end] == stripped[r.start..r.end] {
        PrefixSlice(content, |stripped|, r);
      }
    } else {
      assert ranges[0] in ranges;
      assert content[0] != stripped[0];
      assert content[ranges[0].start..ranges[0].end][0] == content[0];
      assert stripped[ranges[0].start..ranges[0].end][0] == stripped[0];
    }
  }
}
