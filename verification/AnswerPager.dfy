/** Paging through a stored answer (FetchDelegationAnswer, internal/studio/delegation.go)
    without ever splitting a character. */
module AnswerPager {
  type Byte = b: int | 0 <= b < 256 witness 0

  const MIN_BYTES: nat := 4      // one character of the greatest width
  const MAX_BYTES: nat := 8192

  // ------------------------------------------------------------------- UTF-8

  predicate Tail(b: Byte) { 0x80 <= b <= 0xBF }

  /** utf8.RuneStart: anything but a continuation byte. */
  predicate RuneStart(b: Byte) { !Tail(b) }

  /** The length of the well-formed character at the front (section 4 of RFC 3629),
      or 0 if there is none. */
  function RuneLen(s: seq<Byte>): (n: nat)
    ensures n <= 4 && n <= |s|
    ensures n > 0 ==> RuneStart(s[0]) && forall i :: 0 < i < n ==> Tail(s[i])
  {
    if |s| >= 1 && s[0] <= 0x7F then 1
    else if |s| >= 2 && 0xC2 <= s[0] <= 0xDF && Tail(s[1]) then 2
    else if |s| >= 3 && Tail(s[1]) && Tail(s[2]) &&
            ((s[0] == 0xE0 && 0xA0 <= s[1]) || 0xE1 <= s[0] <= 0xEC || (s[0] == 0xED && s[1] <= 0x9F) ||
             0xEE <= s[0] <= 0xEF) then 3
    else if |s| >= 4 && Tail(s[1]) && Tail(s[2]) && Tail(s[3]) &&
            ((s[0] == 0xF0 && 0x90 <= s[1]) || 0xF1 <= s[0] <= 0xF3 || (s[0] == 0xF4 && s[1] <= 0x8F)) then 4
    else 0
  }

  predicate ValidUtf8(s: seq<Byte>) {
    s == [] || (RuneLen(s) > 0 && ValidUtf8(s[RuneLen(s)..]))
  }

  /** A position between two characters. */
  predicate Boundary(s: seq<Byte>, i: nat) {
    i == 0 || (0 < RuneLen(s) <= i && Boundary(s[RuneLen(s)..], i - RuneLen(s)))
  }

  lemma {:induction false} StartsAreBoundaries(s: seq<Byte>, i: nat)
    requires ValidUtf8(s) && i < |s|
    ensures RuneStart(s[i]) <==> Boundary(s, i)
  {
    var n := RuneLen(s);
    if i >= n { StartsAreBoundaries(s[n..], i - n); }
  }

  lemma {:induction false} EndIsBoundary(s: seq<Byte>)
    requires ValidUtf8(s)
    ensures Boundary(s, |s|)
  {
    if s != [] { EndIsBoundary(s[RuneLen(s)..]); }
  }

  lemma PrefixKeepsRune(s: seq<Byte>, i: nat)
    requires 0 < RuneLen(s) <= i <= |s|
    ensures RuneLen(s[..i]) == RuneLen(s) && s[..i][RuneLen(s)..] == s[RuneLen(s)..][..i - RuneLen(s)]
  {
  }

  lemma {:induction false} BoundarySplits(s: seq<Byte>, i: nat)
    requires ValidUtf8(s) && i <= |s| && Boundary(s, i)
    ensures ValidUtf8(s[..i]) && ValidUtf8(s[i..])
  {
    if i > 0 {
      var n := RuneLen(s);
      BoundarySplits(s[n..], i - n);
      PrefixKeepsRune(s, i);
      assert s[n..][i - n..] == s[i..];
    } else {
      assert s[0..] == s;
    }
  }

  /** Two boundaries enclose well-formed text. */
  lemma {:induction false} BetweenBoundaries(s: seq<Byte>, i: nat, j: nat)
    requires ValidUtf8(s) && i <= j <= |s| && Boundary(s, i) && Boundary(s, j)
    ensures ValidUtf8(s[i..j])
  {
    var n := RuneLen(s);
    if i == 0 {
      BoundarySplits(s, j);
    } else {
      BetweenBoundaries(s[n..], i - n, j - n);
      assert s[n..][i - n..j - n] == s[i..j];
    }
  }

  // ------------------------------------------------------------------- paging

  /** The last character start at or before `i`, but not before `low`. */
  function Back(s: seq<Byte>, i: nat, low: nat): (k: nat)
    requires i < |s| && low <= i
    ensures low <= k <= i
  {
    if i > low && !RuneStart(s[i]) then Back(s, i - 1, low) else i
  }

  /** In well-formed text the nearest boundary is at most three bytes back. */
  lemma BackIsNear(s: seq<Byte>, i: nat, low: nat)
    requires ValidUtf8(s) && i < |s| && low <= i && Boundary(s, low)
    ensures Boundary(s, Back(s, i, low)) && Back(s, i, low) >= i - 3
  {
    BackIsStart(s, i, low);
    StartsAreBoundaries(s, Back(s, i, low));
    StartsAreBoundaries(s, low);
    RunesAreShort(s, i);
  }

  lemma {:induction false} BackIsStart(s: seq<Byte>, i: nat, low: nat)
    requires i < |s| && low <= i
    ensures RuneStart(s[Back(s, i, low)]) || Back(s, i, low) == low
    ensures forall k :: Back(s, i, low) < k <= i ==> !RuneStart(s[k])
  {
    if i > low && !RuneStart(s[i]) { BackIsStart(s, i - 1, low); }
  }

  lemma {:induction false} RunesAreShort(s: seq<Byte>, i: nat)
    requires ValidUtf8(s) && i < |s|
    ensures exists k :: 0 <= k <= i && i - 3 <= k && RuneStart(s[k])
  {
    var n := RuneLen(s);
    if i >= n {
      RunesAreShort(s[n..], i - n);
      var k :| 0 <= k <= i - n && i - n - 3 <= k && RuneStart(s[n..][k]);
      assert s[n + k] == s[n..][k];
    } else {
      assert RuneStart(s[0]);
    }
  }

  function Window(maxBytes: int): (w: nat)
    ensures MIN_BYTES <= w <= MAX_BYTES
    ensures 0 < maxBytes <= MAX_BYTES && w > maxBytes ==> w == MIN_BYTES
  {
    if maxBytes <= 0 || maxBytes > MAX_BYTES then MAX_BYTES else if maxBytes < MIN_BYTES then MIN_BYTES else maxBytes
  }

  datatype Page = Page(offset: nat, text: seq<Byte>, fullSize: nat, truncated: bool)

  function Asked(offset: int): nat { if offset < 0 then 0 else offset }

  function EndAt(full: seq<Byte>, start: nat, window: nat): (end: nat)
    requires start < |full|
    ensures start <= end <= |full| && end <= start + window
  {
    if start + window >= |full| then |full| else Back(full, start + window, start)
  }

  /** The page a request gets: where it starts and what it holds. */
  function PageAt(full: seq<Byte>, offset: int, maxBytes: int): Page {
    if Asked(offset) >= |full| then Page(|full|, [], |full|, false)
    else
      var start := Back(full, Asked(offset), 0);
      var end := EndAt(full, start, Window(maxBytes));
      Page(start, full[start..end], |full|, end < |full|)
  }

  method FetchAnswer(full: seq<Byte>, offset: int, maxBytes: int) returns (page: Page)
    ensures page == PageAt(full, offset, maxBytes)
  {
    var window := maxBytes;
    if maxBytes <= 0 || maxBytes > MAX_BYTES {
      window := MAX_BYTES;
    } else if maxBytes < MIN_BYTES {
      window := MIN_BYTES;
    }
    var start := if offset < 0 then 0 else offset;
    if start >= |full| {
      return Page(|full|, [], |full|, false);
    }
    ghost var asked := start;
    while start > 0 && !RuneStart(full[start])
      invariant 0 <= start <= asked && Back(full, start, 0) == Back(full, asked, 0)
    {
      start := start - 1;
    }
    var end := start + window;
    if end > |full| {
      end := |full|;
    }
    ghost var most := end;
    while end > start && end < |full| && !RuneStart(full[end])
      invariant start <= end <= most
      invariant if most == |full| then end == most else Back(full, end, start) == Back(full, most, start)
    {
      end := end - 1;
    }
    return Page(start, full[start..end], |full|, end < |full|);
  }

  lemma PageStarts(full: seq<Byte>, asked: nat)
    requires ValidUtf8(full) && asked < |full|
    ensures var start := Back(full, asked, 0);
            Boundary(full, start) && asked - 3 <= start && (Boundary(full, asked) ==> start == asked)
  {
    BackIsNear(full, asked, 0);
    StartsAreBoundaries(full, asked);
  }

  lemma PageEnds(full: seq<Byte>, start: nat, window: nat)
    requires ValidUtf8(full) && start < |full| && Boundary(full, start) && window >= MIN_BYTES
    ensures var end := EndAt(full, start, window);
            start < end && Boundary(full, end) && ValidUtf8(full[start..end])
  {
    EndIsBoundary(full);
    if start + window < |full| { BackIsNear(full, start + window, start); }
    BetweenBoundaries(full, start, EndAt(full, start, window));
  }

  /** Every page of a well-formed answer is well-formed and within the limit, starts
      at most three bytes before the requested offset, and holds something unless the
      end was reached. */
  lemma PageIsWellFormed(full: seq<Byte>, offset: int, maxBytes: int)
    requires ValidUtf8(full)
    ensures var p := PageAt(full, offset, maxBytes);
            ValidUtf8(p.text) && |p.text| <= Window(maxBytes) && p.offset <= |full| &&
            (Asked(offset) <= |full| ==> Asked(offset) - 3 <= p.offset <= Asked(offset)) &&
            (Asked(offset) < |full| ==> p.text != []) && (p.truncated <==> p.offset + |p.text| < |full|)
  {
    if Asked(offset) < |full| {
      PageStarts(full, Asked(offset));
      PageEnds(full, Back(full, Asked(offset), 0), Window(maxBytes));
    }
  }

  /** A page asked for at a boundary starts there and ends at a later one. */
  lemma PageAdvances(full: seq<Byte>, offset: nat, maxBytes: int)
    requires ValidUtf8(full) && offset < |full| && Boundary(full, offset)
    ensures var p := PageAt(full, offset, maxBytes);
            var next := p.offset + |p.text|;
            p.offset == offset < next <= |full| && p.text == full[offset..next] && Boundary(full, next)
  {
    PageStarts(full, offset);
    PageEnds(full, offset, Window(maxBytes));
  }

  /** What a caller collects who always asks for the next page, with any sizes. */
  ghost predicate Collects(full: seq<Byte>, offset: nat, sizes: seq<int>, texts: seq<seq<Byte>>)
    decreases |texts|
  {
    if offset >= |full| then texts == []
    else
      texts != [] && sizes != [] &&
      var p := PageAt(full, offset, sizes[0]);
      texts[0] == p.text && Collects(full, p.offset + |p.text|, sizes[1..], texts[1..])
  }

  function Concat(texts: seq<seq<Byte>>): seq<Byte> { if texts == [] then [] else texts[0] + Concat(texts[1..]) }

  lemma SplitAt(full: seq<Byte>, i: nat, j: nat)
    requires i <= j <= |full|
    ensures full[i..] == full[i..j] + full[j..]
  {
  }

  /** Following the pages gives back the answer, byte for byte. */
  lemma {:induction false} PagesJoinUp(full: seq<Byte>, offset: nat, sizes: seq<int>, texts: seq<seq<Byte>>)
    requires ValidUtf8(full) && offset <= |full| && Boundary(full, offset) && Collects(full, offset, sizes, texts)
    ensures Concat(texts) == full[offset..]
    decreases |texts|
  {
    if offset < |full| {
      PageAdvances(full, offset, sizes[0]);
      var next := offset + |PageAt(full, offset, sizes[0]).text|;
      SplitAt(full, offset, next);
      PagesJoinUp(full, next, sizes[1..], texts[1..]);
    }
  }

  /** Paging ends: at most one request for each byte is needed. */
  lemma {:induction false} PagingEnds(full: seq<Byte>, offset: nat, sizes: seq<int>) returns (texts: seq<seq<Byte>>)
    requires ValidUtf8(full) && offset <= |full| && Boundary(full, offset) && |sizes| >= |full| - offset
    ensures Collects(full, offset, sizes, texts)
    decreases |full| - offset
  {
    if offset == |full| {
      texts := [];
    } else {
      PageAdvances(full, offset, sizes[0]);
      var p := PageAt(full, offset, sizes[0]);
      var rest := PagingEnds(full, offset + |p.text|, sizes[1..]);
      texts := [p.text] + rest;
      assert texts[1..] == rest;
    }
  }

  /** The next-page rule of a reader: start at 0, continue where the page ended. */
  lemma WholeAnswer(full: seq<Byte>, sizes: seq<int>) returns (texts: seq<seq<Byte>>)
    requires ValidUtf8(full) && |sizes| >= |full|
    ensures Collects(full, 0, sizes, texts) && Concat(texts) == full
  {
    texts := PagingEnds(full, 0, sizes);
    PagesJoinUp(full, 0, sizes, texts);
    assert full[0..] == full;
  }
}
