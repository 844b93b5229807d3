/** The durable table of delegations (internal/studio/delegation_runs.go).

    The file is a list of rows, newest first. Rows move from a live status to a
    terminal one once, and retention drops terminal rows only. */
module DelegationRuns {
  const MAX_RUNS: nat := 200
  const MAX_FILE: nat := 0x40_0000

  // Status text: any string other than the three terminal ones counts as live.
  datatype Status = Running | Completed | Stopped | Failed | Other(text: string)

  predicate Terminal(status: Status) {
    status.Completed? || status.Stopped? || status.Failed?
  }

  // What a finishing or progress patch may write into a row.
  datatype Detail = Detail(answer: string, tail: seq<string>, denied: seq<string>, mutated: bool)

  datatype Run = Run(
    id: string, batch: string,
    from: string, fromSession: string, to: string, toSession: string,
    status: Status, errorType: string, error: string, detail: Detail,
    startedAt: int, completedAt: int)

  predicate Live(r: Run) { !Terminal(r.status) }

  /** The two rows describe the same delegation: only its outcome may differ. */
  predicate SameRun(a: Run, b: Run) {
    a.id == b.id && a.batch == b.batch && a.from == b.from && a.fromSession == b.fromSession &&
    a.to == b.to && a.toSession == b.toSession && a.startedAt == b.startedAt
  }

  // ---------------------------------------------------------------- ordering

  predicate NewestFirst(rows: seq<Run>) {
    forall i, j :: 0 <= i < j < |rows| ==> rows[i].startedAt >= rows[j].startedAt
  }

  function AtTime(rows: seq<Run>, t: int): seq<Run> {
    if rows == [] then []
    else (if rows[0].startedAt == t then [rows[0]] else []) + AtTime(rows[1..], t)
  }

  lemma {:induction false} AtTimeConcat(xs: seq<Run>, ys: seq<Run>, t: int)
    ensures AtTime(xs + ys, t) == AtTime(xs, t) + AtTime(ys, t)
  {
    if xs == [] {
      assert xs + ys == ys;
    } else {
      assert (xs + ys)[1..] == xs[1..] + ys;
      AtTimeConcat(xs[1..], ys, t);
    }
  }

  function Insert(sorted: seq<Run>, r: Run): seq<Run> {
    if sorted == [] || sorted[|sorted| - 1].startedAt >= r.startedAt then sorted + [r]
    else Insert(sorted[..|sorted| - 1], r) + [sorted[|sorted| - 1]]
  }

  /** A stable sort, newest start first. */
  function SortNewest(rows: seq<Run>): seq<Run> {
    if rows == [] then [] else Insert(SortNewest(rows[..|rows| - 1]), rows[|rows| - 1])
  }

  lemma {:induction false} InsertPermutes(sorted: seq<Run>, r: Run)
    ensures multiset(Insert(sorted, r)) == multiset(sorted) + multiset{r}
  {
    var n := |sorted|;
    if n > 0 && sorted[n - 1].startedAt < r.startedAt {
      InsertPermutes(sorted[..n - 1], r);
      assert sorted == sorted[..n - 1] + [sorted[n - 1]];
    }
  }

  lemma {:induction false} InsertOrders(sorted: seq<Run>, r: Run)
    requires NewestFirst(sorted)
    ensures NewestFirst(Insert(sorted, r))
  {
    var n := |sorted|;
    if n > 0 && sorted[n - 1].startedAt < r.startedAt {
      var init, last := sorted[..n - 1], sorted[n - 1];
      InsertOrders(init, r);
      InsertPermutes(init, r);
      var ins := Insert(init, r);
      forall i | 0 <= i < |ins| ensures ins[i].startedAt >= last.startedAt {
        assert ins[i] in multiset(ins);
        assert ins[i] in multiset(init) || ins[i] == r;
      }
    }
  }

  lemma {:induction false} InsertIsStable(sorted: seq<Run>, r: Run, t: int)
    ensures AtTime(Insert(sorted, r), t) == AtTime(sorted + [r], t)
  {
    var n := |sorted|;
    if n > 0 && sorted[n - 1].startedAt < r.startedAt {
      var init, last := sorted[..n - 1], sorted[n - 1];
      InsertIsStable(init, r, t);
      AtTimeConcat(Insert(init, r), [last], t);
      AtTimeConcat(init, [r], t);
      assert sorted == init + [last];
      AtTimeConcat(init, [last], t);
      AtTimeConcat(sorted, [r], t);
      assert AtTime([r], t) == [] || AtTime([last], t) == [];
    }
  }

  lemma {:induction false} SortPermutes(rows: seq<Run>)
    ensures multiset(SortNewest(rows)) == multiset(rows)
  {
    if rows != [] {
      var init, last := rows[..|rows| - 1], rows[|rows| - 1];
      SortPermutes(init);
      InsertPermutes(SortNewest(init), last);
      assert rows == init + [last];
    }
  }

  lemma {:induction false} SortOrders(rows: seq<Run>)
    ensures NewestFirst(SortNewest(rows))
  {
    if rows != [] {
      SortOrders(rows[..|rows| - 1]);
      InsertOrders(SortNewest(rows[..|rows| - 1]), rows[|rows| - 1]);
    }
  }

  lemma {:induction false} SortIsStable(rows: seq<Run>, t: int)
    ensures AtTime(SortNewest(rows), t) == AtTime(rows, t)
  {
    if rows != [] {
      var init, last := rows[..|rows| - 1], rows[|rows| - 1];
      SortIsStable(init, t);
      InsertIsStable(SortNewest(init), last, t);
      AtTimeConcat(SortNewest(init), [last], t);
      AtTimeConcat(init, [last], t);
      assert rows == init + [last];
    }
  }

  /** Sorting loses nothing, orders by start time, and keeps rows that started
      together in their stored order; the three facts fix the result. */
  lemma SortNewestSorts(rows: seq<Run>)
    ensures NewestFirst(SortNewest(rows))
    ensures multiset(SortNewest(rows)) == multiset(rows)
    ensures forall t :: AtTime(SortNewest(rows), t) == AtTime(rows, t)
  {
    SortPermutes(rows);
    SortOrders(rows);
    forall t ensures AtTime(SortNewest(rows), t) == AtTime(rows, t) { SortIsStable(rows, t); }
  }

  // --------------------------------------------------------------- retention

  /** The rows that are live (or, for false, the terminal ones), in order. */
  function Having(live: bool, rows: seq<Run>): seq<Run> {
    if rows == [] then []
    else (if Live(rows[0]) == live then [rows[0]] else []) + Having(live, rows[1..])
  }

  lemma {:induction false} HavingConcat(live: bool, xs: seq<Run>, ys: seq<Run>)
    ensures Having(live, xs + ys) == Having(live, xs) + Having(live, ys)
  {
    if xs == [] {
      assert xs + ys == ys;
    } else {
      var first := if Live(xs[0]) == live then [xs[0]] else [];
      assert (xs + ys)[0] == xs[0] && (xs + ys)[1..] == xs[1..] + ys;
      HavingConcat(live, xs[1..], ys);
      assert first + (Having(live, xs[1..]) + Having(live, ys)) == first + Having(live, xs[1..]) + Having(live, ys);
    }
  }

  lemma {:induction false} HavingMembers(live: bool, rows: seq<Run>)
    ensures forall i :: 0 <= i < |Having(live, rows)| ==>
              Having(live, rows)[i] in rows && Live(Having(live, rows)[i]) == live
  {
    if rows != [] {
      HavingMembers(live, rows[1..]);
    }
  }

  lemma {:induction false} HavingUniform(live: bool, rows: seq<Run>)
    requires forall i :: 0 <= i < |rows| ==> Live(rows[i]) == live
    ensures Having(live, rows) == rows && Having(!live, rows) == []
  {
    if rows != [] {
      HavingUniform(live, rows[1..]);
    }
  }

  lemma {:induction false} HavingSplits(rows: seq<Run>)
    ensures multiset(Having(true, rows)) + multiset(Having(false, rows)) == multiset(rows)
  {
    if rows != [] {
      HavingSplits(rows[1..]);
      assert rows == [rows[0]] + rows[1..];
    }
  }

  lemma {:induction false} HavingKeepsOrder(live: bool, rows: seq<Run>)
    requires NewestFirst(rows)
    ensures NewestFirst(Having(live, rows))
  {
    if rows != [] {
      HavingKeepsOrder(live, rows[1..]);
      HavingMembers(live, rows[1..]);
      var rest := Having(live, rows[1..]);
      forall i | 0 <= i < |rest| ensures rest[i].startedAt <= rows[0].startedAt {
        assert rest[i] in rows[1..];
      }
    }
  }

  function Reverse(xs: seq<Run>): (r: seq<Run>)
    ensures |r| == |xs|
    ensures forall i :: 0 <= i < |xs| ==> r[i] == xs[|xs| - 1 - i]
  {
    if xs == [] then [] else Reverse(xs[1..]) + [xs[0]]
  }

  lemma {:induction false} ReversePermutes(xs: seq<Run>)
    ensures multiset(Reverse(xs)) == multiset(xs)
  {
    if xs != [] {
      ReversePermutes(xs[1..]);
      assert xs == [xs[0]] + xs[1..];
    }
  }

  function RowBytes(bytes: Run -> nat, rows: seq<Run>): nat {
    if rows == [] then 0 else 4 + bytes(rows[0]) + RowBytes(bytes, rows[1..])
  }

  lemma {:induction false} RowBytesConcat(bytes: Run -> nat, xs: seq<Run>, ys: seq<Run>)
    ensures RowBytes(bytes, xs + ys) == RowBytes(bytes, xs) + RowBytes(bytes, ys)
  {
    if xs == [] {
      assert xs + ys == ys;
    } else {
      assert (xs + ys)[1..] == xs[1..] + ys;
      RowBytesConcat(bytes, xs[1..], ys);
    }
  }

  lemma {:induction false} LiveRowsAreFewer(bytes: Run -> nat, rows: seq<Run>)
    ensures RowBytes(bytes, Having(true, rows)) <= RowBytes(bytes, rows)
    ensures |Having(true, rows)| <= |rows|
  {
    if rows != [] {
      LiveRowsAreFewer(bytes, rows[1..]);
      RowBytesConcat(bytes, if Live(rows[0]) then [rows[0]] else [], Having(true, rows[1..]));
    }
  }

  /** Length of the pretty-printed list: its brackets, and per row a line break,
      indentation and a separator. `bytes` gives the length of one row's text. */
  function JsonBytes(bytes: Run -> nat, rows: seq<Run>): nat {
    2 + RowBytes(bytes, rows)
  }

  /** Both retention limits; the closing newline is part of the file. */
  predicate Fits(bytes: Run -> nat, rows: seq<Run>) {
    |rows| <= MAX_RUNS && JsonBytes(bytes, rows) + 1 <= MAX_FILE
  }

  lemma {:induction false} InsertKeepsLiveTotals(bytes: Run -> nat, sorted: seq<Run>, r: Run)
    ensures |Having(true, Insert(sorted, r))| == |Having(true, sorted + [r])|
    ensures RowBytes(bytes, Having(true, Insert(sorted, r))) == RowBytes(bytes, Having(true, sorted + [r]))
  {
    var n := |sorted|;
    if n > 0 && sorted[n - 1].startedAt < r.startedAt {
      var init, last := sorted[..n - 1], sorted[n - 1];
      InsertKeepsLiveTotals(bytes, init, r);
      HavingConcat(true, Insert(init, r), [last]);
      RowBytesConcat(bytes, Having(true, Insert(init, r)), Having(true, [last]));
      HavingConcat(true, init, [r]);
      RowBytesConcat(bytes, Having(true, init), Having(true, [r]));
      assert sorted == init + [last];
      HavingConcat(true, init, [last]);
      HavingConcat(true, sorted, [r]);
      RowBytesConcat(bytes, Having(true, init), Having(true, [last]));
      RowBytesConcat(bytes, Having(true, sorted), Having(true, [r]));
    }
  }

  /** Whether the live rows alone fit does not depend on their order. */
  lemma {:induction false} SortKeepsLiveTotals(bytes: Run -> nat, rows: seq<Run>)
    ensures |Having(true, SortNewest(rows))| == |Having(true, rows)|
    ensures RowBytes(bytes, Having(true, SortNewest(rows))) == RowBytes(bytes, Having(true, rows))
  {
    if rows != [] {
      var init, last := rows[..|rows| - 1], rows[|rows| - 1];
      SortKeepsLiveTotals(bytes, init);
      InsertKeepsLiveTotals(bytes, SortNewest(init), last);
      assert rows == init + [last];
      HavingConcat(true, SortNewest(init), [last]);
      HavingConcat(true, init, [last]);
      RowBytesConcat(bytes, Having(true, SortNewest(init)), Having(true, [last]));
      RowBytesConcat(bytes, Having(true, init), Having(true, [last]));
    }
  }

  /** `kept` is `rows` without its terminal rows from position `cut` on, and
      `evicted` is those rows, oldest first. */
  ghost predicate CutAt(rows: seq<Run>, cut: nat, kept: seq<Run>, evicted: seq<Run>) {
    cut <= |rows| &&
    kept == rows[..cut] + Having(true, rows[cut..]) &&
    evicted == Reverse(Having(false, rows[cut..]))
  }

  /** Evicting one row fewer would still break a limit. */
  ghost predicate NoMoreThanNeeded(bytes: Run -> nat, rows: seq<Run>, cut: nat)
    requires cut <= |rows|
  {
    cut == |rows| ||
    (!Live(rows[cut]) && !Fits(bytes, rows[..cut + 1] + Having(true, rows[cut + 1..])))
  }

  datatype Fitted = Kept(kept: seq<Run>, evicted: seq<Run>) | LiveRowsTooLarge

  /** Moving the cut down to `i`, when everything from `i + 1` up to the old cut
      is live, changes the two selections by exactly the row at `i`. */
  lemma CutDownTo(rows: seq<Run>, cut: nat, i: nat)
    requires i < cut <= |rows| && !Live(rows[i])
    requires forall j :: i < j < cut ==> Live(rows[j])
    ensures Having(true, rows[i + 1..]) == rows[i + 1..cut] + Having(true, rows[cut..])
    ensures Having(true, rows[i..]) == Having(true, rows[i + 1..])
    ensures Having(false, rows[i..]) == [rows[i]] + Having(false, rows[cut..])
  {
    var mid := rows[i + 1..cut];
    HavingUniform(true, mid);
    assert rows[i + 1..] == mid + rows[cut..];
    HavingConcat(true, mid, rows[cut..]);
    HavingConcat(false, mid, rows[cut..]);
    assert rows[i..][0] == rows[i] && rows[i..][1..] == rows[i + 1..];
    assert Having(false, rows[i + 1..]) == Having(false, rows[cut..]);
  }

  lemma LastTerminalIsInFront(rows: seq<Run>, cut: nat, i: nat, kept: seq<Run>)
    requires cut <= |rows| && kept == rows[..cut] + Having(true, rows[cut..])
    requires i < |kept| && !Live(kept[i])
    ensures i < cut
  {
    if i >= cut {
      HavingMembers(true, rows[cut..]);
      assert false;
    }
  }

  lemma DropFromKept(rows: seq<Run>, cut: nat, i: nat, kept: seq<Run>)
    requires i < cut <= |rows| && kept == rows[..cut] + Having(true, rows[cut..])
    requires Having(true, rows[i + 1..]) == rows[i + 1..cut] + Having(true, rows[cut..])
    ensures kept[i] == rows[i] && kept[..i] == rows[..i]
    ensures kept[i + 1..] == Having(true, rows[i + 1..])
    ensures kept == rows[..i + 1] + Having(true, rows[i + 1..])
  {
  }

  lemma DropMovesCut(rows: seq<Run>, cut: nat, i: nat, kept: seq<Run>, evicted: seq<Run>)
    requires CutAt(rows, cut, kept, evicted)
    requires i < |kept| && !Live(kept[i])
    requires forall j :: i < j < |kept| ==> Live(kept[j])
    ensures i < cut && !Live(rows[i])
    ensures CutAt(rows, i, kept[..i] + kept[i + 1..], evicted + [kept[i]])
    ensures kept == rows[..i + 1] + Having(true, rows[i + 1..])
  {
    LastTerminalIsInFront(rows, cut, i, kept);
    forall j | i <= j < cut ensures Live(rows[j]) == Live(kept[j]) { assert rows[j] == kept[j]; }
    CutDownTo(rows, cut, i);
    DropFromKept(rows, cut, i, kept);
    ReverseCons(rows[i], Having(false, rows[cut..]));
  }

  lemma ReverseCons(x: Run, xs: seq<Run>)
    ensures Reverse([x] + xs) == Reverse(xs) + [x]
  {
  }

  /** Removes the last terminal row of `kept`, if there is one. */
  method DropOldestTerminal(kept: seq<Run>, evicted: seq<Run>)
    returns (dropped: bool, kept': seq<Run>, evicted': seq<Run>, ghost at: nat)
    ensures !dropped ==> forall i :: 0 <= i < |kept| ==> Live(kept[i])
    ensures dropped ==> at < |kept| && !Live(kept[at]) && (forall j :: at < j < |kept| ==> Live(kept[j]))
    ensures dropped ==> kept' == kept[..at] + kept[at + 1..] && evicted' == evicted + [kept[at]]
    ensures !dropped ==> kept' == kept && evicted' == evicted
  {
    kept', evicted', at := kept, evicted, 0;
    var i := |kept| - 1;
    while i >= 0
      invariant -1 <= i < |kept|
      invariant forall j :: i < j < |kept| ==> Live(kept[j])
    {
      if !Live(kept[i]) {
        return true, kept[..i] + kept[i + 1..], evicted + [kept[i]], i;
      }
      i := i - 1;
    }
    dropped := false;
  }

  lemma AllLiveIsLiveOnly(rows: seq<Run>, cut: nat, kept: seq<Run>, evicted: seq<Run>)
    requires CutAt(rows, cut, kept, evicted)
    requires forall i :: 0 <= i < |kept| ==> Live(kept[i])
    ensures kept == Having(true, rows)
  {
    forall j | 0 <= j < cut ensures Live(rows[..cut][j]) { assert rows[j] == kept[j]; }
    HavingUniform(true, rows[..cut]);
    assert rows == rows[..cut] + rows[cut..];
    HavingConcat(true, rows[..cut], rows[cut..]);
  }

  /** The live rows alone are never larger than any list retention can keep. */
  lemma LiveOnlyIsSmallest(bytes: Run -> nat, rows: seq<Run>, cut: nat, kept: seq<Run>, evicted: seq<Run>)
    requires CutAt(rows, cut, kept, evicted) && Fits(bytes, kept)
    ensures Fits(bytes, Having(true, rows))
  {
    var head, tail := rows[..cut], rows[cut..];
    assert rows == head + tail;
    HavingConcat(true, head, tail);
    RowBytesConcat(bytes, head, Having(true, tail));
    RowBytesConcat(bytes, Having(true, head), Having(true, tail));
    LiveRowsAreFewer(bytes, head);
  }

  /** The outcome of retention: the oldest terminal rows went, as few as both limits
      allow. */
  ghost predicate Retains(bytes: Run -> nat, runs: seq<Run>, kept: seq<Run>, evicted: seq<Run>) {
    Fits(bytes, kept) &&
    exists cut: nat :: CutAt(SortNewest(runs), cut, kept, evicted) && NoMoreThanNeeded(bytes, SortNewest(runs), cut)
  }

  /** If the rows fit after cutting later, they also fit after cutting earlier. */
  lemma EarlierCutFits(bytes: Run -> nat, rows: seq<Run>, a: nat, b: nat)
    requires a <= b <= |rows| && Fits(bytes, rows[..b] + Having(true, rows[b..]))
    ensures Fits(bytes, rows[..a] + Having(true, rows[a..]))
  {
    var mid, tail := rows[a..b], rows[b..];
    assert rows[a..] == mid + tail && rows[..b] == rows[..a] + mid;
    HavingConcat(true, mid, tail);
    RowBytesConcat(bytes, rows[..a], mid);
    RowBytesConcat(bytes, rows[..b], Having(true, tail));
    RowBytesConcat(bytes, Having(true, mid), Having(true, tail));
    RowBytesConcat(bytes, rows[..a], Having(true, rows[a..]));
    LiveRowsAreFewer(bytes, mid);
  }

  lemma CutsAgree(bytes: Run -> nat, rows: seq<Run>, a: nat, b: nat, kept: seq<Run>, evicted: seq<Run>)
    requires a <= |rows| && NoMoreThanNeeded(bytes, rows, a)
    requires CutAt(rows, b, kept, evicted) && Fits(bytes, kept)
    ensures b <= a
  {
    if a < b { EarlierCutFits(bytes, rows, a + 1, b); }
  }

  /** There is only one way to satisfy retention: the limits decide which rows go. */
  lemma RetentionIsDetermined(bytes: Run -> nat, runs: seq<Run>, kept: seq<Run>, evicted: seq<Run>,
                              kept': seq<Run>, evicted': seq<Run>)
    requires Retains(bytes, runs, kept, evicted) && Retains(bytes, runs, kept', evicted')
    ensures kept == kept' && evicted == evicted'
  {
    var rows := SortNewest(runs);
    var a: nat :| CutAt(rows, a, kept, evicted) && NoMoreThanNeeded(bytes, rows, a);
    var b: nat :| CutAt(rows, b, kept', evicted') && NoMoreThanNeeded(bytes, rows, b);
    CutsAgree(bytes, rows, a, b, kept', evicted');
    CutsAgree(bytes, rows, b, a, kept, evicted);
    assert a == b;
  }

  lemma InsertLast(init: seq<Run>, last: Run)
    requires forall i :: 0 <= i < |init| ==> init[i].startedAt >= last.startedAt
    ensures Insert(init, last) == init + [last]
  {
  }

  lemma {:induction false} SortedStays(rows: seq<Run>)
    requires NewestFirst(rows)
    ensures SortNewest(rows) == rows
  {
    if rows != [] {
      var init, last := rows[..|rows| - 1], rows[|rows| - 1];
      SortedStays(init);
      InsertLast(init, last);
      assert rows == init + [last];
    }
  }

  /** When a full file has no room for its oldest row and that row is terminal, saving
      drops exactly that row, even if it was made terminal by this very save. */
  lemma FullFileDropsOldest(bytes: Run -> nat, rows: seq<Run>, r: Run, kept: seq<Run>, evicted: seq<Run>)
    requires NewestFirst(rows + [r]) && !Live(r) && Fits(bytes, rows) && !Fits(bytes, rows + [r])
    requires Retains(bytes, rows + [r], kept, evicted)
    ensures kept == rows && evicted == [r]
  {
    SortedStays(rows + [r]);
    LastRowGoes(bytes, rows, r);
    assert Retains(bytes, rows + [r], rows, [r]);
    RetentionIsDetermined(bytes, rows + [r], kept, evicted, rows, [r]);
  }

  lemma LastRowGoes(bytes: Run -> nat, rows: seq<Run>, r: Run)
    requires !Live(r) && !Fits(bytes, rows + [r])
    ensures CutAt(rows + [r], |rows|, rows, [r]) && NoMoreThanNeeded(bytes, rows + [r], |rows|)
  {
    var all, n := rows + [r], |rows|;
    assert all[..n] == rows && all[n..] == [r] && all[n + 1..] == [] && all[..n + 1] == all;
    HavingUniform(false, [r]);
    ReverseCons(r, []);
    assert rows + [] == rows && [r] + [] == [r] && all + [] == all;
  }

  /** fitDelegationRuns, which refuses exactly when the live rows alone are too large. */
  method FitDelegationRuns(bytes: Run -> nat, runs: seq<Run>) returns (r: Fitted)
    ensures r.LiveRowsTooLarge? <==> !Fits(bytes, Having(true, runs))
    ensures r.Kept? ==> Retains(bytes, runs, r.kept, r.evicted)
  {
    ghost var rows := SortNewest(runs);
    SortKeepsLiveTotals(bytes, runs);
    var kept := SortNewest(runs);
    var evicted: seq<Run> := [];
    ghost var cut: nat := |rows|;
    assert rows[cut..] == [] && rows[..cut] == rows;
    while |kept| > MAX_RUNS
      invariant CutAt(rows, cut, kept, evicted) && NoMoreThanNeeded(bytes, rows, cut)
      decreases |kept|
    {
      var dropped, kept', evicted', at := DropOldestTerminal(kept, evicted);
      if !dropped {
        AllLiveIsLiveOnly(rows, cut, kept, evicted);
        return LiveRowsTooLarge;
      }
      DropMovesCut(rows, cut, at, kept, evicted);
      kept, evicted, cut := kept', evicted', at;
    }
    while true
      invariant |kept| <= MAX_RUNS
      invariant CutAt(rows, cut, kept, evicted) && NoMoreThanNeeded(bytes, rows, cut)
      decreases |kept|
    {
      if JsonBytes(bytes, kept) + 1 <= MAX_FILE {
        LiveOnlyIsSmallest(bytes, rows, cut, kept, evicted);
        return Kept(kept, evicted);
      }
      var dropped, kept', evicted', at := DropOldestTerminal(kept, evicted);
      if !dropped {
        AllLiveIsLiveOnly(rows, cut, kept, evicted);
        return LiveRowsTooLarge;
      }
      DropMovesCut(rows, cut, at, kept, evicted);
      kept, evicted, cut := kept', evicted', at;
    }
  }

  /** In a newest-first list, whatever is drawn from behind the cut is no newer
      than anything in front of it. */
  lemma OlderThanHead(rows: seq<Run>, cut: nat, drawn: seq<Run>)
    requires NewestFirst(rows) && cut <= |rows|
    requires NewestFirst(drawn) && forall i :: 0 <= i < |drawn| ==> drawn[i] in rows[cut..]
    ensures NewestFirst(rows[..cut] + drawn)
  {
  }

  lemma RetentionLosesNothing(rows: seq<Run>, cut: nat, kept: seq<Run>, evicted: seq<Run>)
    requires CutAt(rows, cut, kept, evicted)
    ensures multiset(kept) + multiset(evicted) == multiset(rows)
  {
    assert rows == rows[..cut] + rows[cut..];
    HavingSplits(rows[cut..]);
    ReversePermutes(Having(false, rows[cut..]));
  }

  lemma RetentionKeepsLive(rows: seq<Run>, cut: nat, kept: seq<Run>, evicted: seq<Run>)
    requires CutAt(rows, cut, kept, evicted)
    ensures Having(true, kept) == Having(true, rows)
  {
    var head, tail := rows[..cut], rows[cut..];
    assert rows == head + tail;
    HavingMembers(true, tail);
    HavingUniform(true, Having(true, tail));
    HavingConcat(true, head, tail);
    HavingConcat(true, head, Having(true, tail));
  }

  lemma EvictedAreBehindTheCut(rows: seq<Run>, cut: nat, kept: seq<Run>, evicted: seq<Run>)
    requires CutAt(rows, cut, kept, evicted)
    ensures forall i :: 0 <= i < |evicted| ==> evicted[i] in rows[cut..] && !Live(evicted[i])
  {
    var gone := Having(false, rows[cut..]);
    HavingMembers(false, rows[cut..]);
    forall i | 0 <= i < |evicted| ensures evicted[i] in rows[cut..] && !Live(evicted[i]) {
      assert evicted[i] == gone[|gone| - 1 - i];
    }
  }

  /** What any outcome of retention means for the table: nothing is lost or
      invented, the live rows all stay and in order, only terminal rows go, and no
      evicted row is newer than a terminal row that stays. */
  lemma RetentionMeaning(runs: seq<Run>, cut: nat, kept: seq<Run>, evicted: seq<Run>)
    requires CutAt(SortNewest(runs), cut, kept, evicted)
    ensures multiset(kept) + multiset(evicted) == multiset(runs)
    ensures Having(true, kept) == Having(true, SortNewest(runs))
    ensures NewestFirst(kept)
    ensures forall i :: 0 <= i < |evicted| ==> !Live(evicted[i])
    ensures forall i, k :: 0 <= i < |evicted| && 0 <= k < |kept| && !Live(kept[k]) ==>
              evicted[i].startedAt <= kept[k].startedAt
  {
    var rows := SortNewest(runs);
    SortNewestSorts(runs);
    RetentionLosesNothing(rows, cut, kept, evicted);
    RetentionKeepsLive(rows, cut, kept, evicted);
    EvictedAreBehindTheCut(rows, cut, kept, evicted);
    KeptIsInOrder(rows, cut);
    EvictedAreOldest(rows, cut, kept, evicted);
  }

  lemma EvictedAreOldest(rows: seq<Run>, cut: nat, kept: seq<Run>, evicted: seq<Run>)
    requires NewestFirst(rows) && CutAt(rows, cut, kept, evicted)
    ensures forall i, k :: 0 <= i < |evicted| && 0 <= k < |kept| && !Live(kept[k]) ==>
              evicted[i].startedAt <= kept[k].startedAt
  {
    EvictedAreBehindTheCut(rows, cut, kept, evicted);
    forall i, k | 0 <= i < |evicted| && 0 <= k < |kept| && !Live(kept[k])
      ensures evicted[i].startedAt <= kept[k].startedAt
    {
      LastTerminalIsInFront(rows, cut, k, kept);
      BehindIsOlder(rows, cut, k, evicted[i]);
      assert rows[k] == kept[k];
    }
  }

  lemma KeptIsInOrder(rows: seq<Run>, cut: nat)
    requires NewestFirst(rows) && cut <= |rows|
    ensures NewestFirst(rows[..cut] + Having(true, rows[cut..]))
  {
    HavingMembers(true, rows[cut..]);
    HavingKeepsOrder(true, rows[cut..]);
    OlderThanHead(rows, cut, Having(true, rows[cut..]));
  }

  lemma BehindIsOlder(rows: seq<Run>, cut: nat, k: nat, r: Run)
    requires NewestFirst(rows) && k < cut <= |rows| && r in rows[cut..]
    ensures r.startedAt <= rows[k].startedAt
  {
  }
}
