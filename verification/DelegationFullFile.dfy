/** A run of the delegation protocol, with real retention and no disk fault, in which a
    run's end is announced twice: it outlives so many others that their rows fill the
    file and, when it ends as well, retention drops its row. */
module DelegationFullFile {
  import opened DelegationRuns
  import opened DelegationStore
  import opened DelegationRegistry
  import opened DelegationProtocol
  import opened DelegationInvariant
  import opened DelegationTheorems
  import opened DelegationGuarantees
  import opened DelegationEviction
  import Text
  import opened Wrappers

  // ------------------------------------------------------------- any full file

  lemma GenuinelyFrom(bytes: Run -> nat, s: State, step: Step, later: seq<Step>)
    requires Can(s, step) && Genuine(bytes, s, step) && Feasible(Next(s, step), later)
    requires Genuinely(bytes, Next(s, step), later)
    ensures Feasible(s, [step] + later) && Genuinely(bytes, s, [step] + later)
    ensures After(s, [step] + later) == After(Next(s, step), later)
  {
    assert ([step] + later)[1..] == later;
  }

  lemma OnwardAfter(bytes: Run -> nat, s: State, step: Step, s': State)
    requires Can(s, step) && Genuine(bytes, s, step) && Onward(bytes, Next(s, step), s')
    ensures Onward(bytes, s, s')
  {
    var later :| Feasible(Next(s, step), later) && Genuinely(bytes, Next(s, step), later) &&
                 After(Next(s, step), later) == s';
    GenuinelyFrom(bytes, s, step, later);
  }

  /** Thread `t` is about to end its run. */
  predicate AboutToEnd(s: State, t: nat, c: Choice) {
    t < |s.threads| && s.threads[t].Op? && s.threads[t].pc.Finish? && Terminal(c.status) && !c.fault &&
    s.threads[t].id in s.rows && Live(s.rows[s.threads[t].id]) && s.rows[s.threads[t].id].id == s.threads[t].id
  }

  function EndedRow(s: State, t: nat, c: Choice): Run
    requires AboutToEnd(s, t, c)
  {
    Ended(s.rows[s.threads[t].id], c)
  }

  /** Ended, the run will not fit into the file any more, and it is the oldest in it. */
  ghost predicate Overflows(bytes: Run -> nat, s: State, t: nat, c: Choice, others: seq<Run>)
    requires AboutToEnd(s, t, c)
  {
    UniqueIds(others + [EndedRow(s, t, c)]) && NewestFirst(others + [EndedRow(s, t, c)]) &&
    Table(others + [EndedRow(s, t, c)]) == s.rows[s.threads[t].id := EndedRow(s, t, c)] &&
    Fits(bytes, others) && !Fits(bytes, others + [EndedRow(s, t, c)])
  }

  lemma OverflowDropsIt(bytes: Run -> nat, s: State, t: nat, c: Choice, others: seq<Run>)
    requires AboutToEnd(s, t, c) && Overflows(bytes, s, t, c, others)
    ensures Saving(s, t, c) && Retained(bytes, Saved(s, t, c), {s.threads[t].id})
    ensures MayEvict(Saved(s, t, c), {s.threads[t].id})
  {
    LastIsDropped(bytes, others, EndedRow(s, t, c));
  }

  lemma LastIsDropped(bytes: Run -> nat, others: seq<Run>, ended: Run)
    requires UniqueIds(others + [ended]) && NewestFirst(others + [ended]) && !Live(ended)
    requires Fits(bytes, others) && !Fits(bytes, others + [ended])
    ensures Retained(bytes, Table(others + [ended]), {ended.id})
  {
    SortedStays(others + [ended]);
    LastRowGoes(bytes, others, ended);
    assert Retains(bytes, others + [ended], others, [ended]);
    assert ended in [ended] && Ids([ended]) == {ended.id};
  }

  /** Whenever a run with a registered owner is about to be ended and real retention will
      have to drop it, its end may be announced twice. */
  lemma OverflowAnnouncesTwice(bytes: Run -> nat, s: State, t: nat, c: Choice, others: seq<Run>) returns (s': State)
    requires Reachable(s) && AboutToEnd(s, t, c) && Overflows(bytes, s, t, c, others)
    requires s.threads[t].id in s.h.activated && s.threads[t].id in s.registry && s.threads[t].id !in s.h.faulted
    ensures Onward(bytes, s, s') && AnnouncedTwice(s', s.threads[t].id) && s.threads[t].id !in s'.h.faulted
  {
    var id := s.threads[t].id;
    OverflowDropsIt(bytes, s, t, c, others);
    var step := Move(t, c.(evict := {id}));
    OverflowStep(s, t, c);
    Reaches(s, step);
    s' := MissingRowAnnouncesTwice(bytes, Next(s, step), id);
    assert Saved(s, t, c.(evict := {id})) == Saved(s, t, c);
    OnwardAfter(bytes, s, step, s');
  }

  lemma OverflowStep(s: State, t: nat, c: Choice)
    requires t < |s.threads| && s.threads[t].Op? && s.threads[t].pc.Finish? && Terminal(c.status) && Saving(s, t, c)
    requires MayEvict(Saved(s, t, c), {s.threads[t].id})
    ensures var id, step := s.threads[t].id, Move(t, c.(evict := {s.threads[t].id}));
            Can(s, step) && id !in Next(s, step).rows && Next(s, step).registry == s.registry &&
            Next(s, step).h.activated == s.h.activated && Next(s, step).h.faulted == s.h.faulted
  {
  }

  // ------------------------------------------------------------- filling it up

  const BODY := 16384   // an answer is cut at 16 KiB
  const MANY := 125     // so many rows fit, but not one more

  /** A row's text: its fixed parts, and an answer of quotation marks, each of which is
      written as two bytes. */
  function Size(r: Run): nat { 600 + 2 * |r.detail.answer| }

  function Ending(answer: string): Choice { PICK.(detail := Detail(answer, [], [], false)) }

  function Name(i: nat): (name: string)
    ensures |name| == i + 2
  {
    if i == 0 then "qq" else Name(i - 1) + "q"
  }

  lemma NamesDiffer(i: nat, j: nat)
    ensures Name(i) == Name(j) <==> i == j
    ensures Name(i) != "r" && Name(i) != ""
  {
    assert |Name(i)| == i + 2 && |Name(j)| == j + 2;
  }

  // The long run, and the others that come and go.
  const LONG := Req("r", "", "A", "a", "B", false)
  const LONG_ROW := RunOf(LONG, "c", 0)
  const OWNER := map["r" := HandleOf(LONG_ROW)]

  function Short(i: nat): Req { Req(Name(i), "", "A", "a", "C", false) }
  function ShortRow(i: nat): Run { RunOf(Short(i), Name(i), i + 1) }
  function ShortEnded(i: nat, a: string): Run { Ended(ShortRow(i), Ending(a)) }

  /** The rows of the runs that ended, newest first. */
  function Ends(n: nat, a: string): seq<Run> { if n == 0 then [] else [ShortEnded(n - 1, a)] + Ends(n - 1, a) }

  lemma {:induction false} EndsAre(n: nat, a: string)
    ensures |Ends(n, a)| == n && forall i :: 0 <= i < n ==> Ends(n, a)[i] == ShortEnded(n - 1 - i, a)
  {
    if n > 0 { EndsAre(n - 1, a); }
  }

  lemma {:induction false} EndsBytes(n: nat, a: string)
    ensures RowBytes(Size, Ends(n, a)) == n * (604 + 2 * |a|)
  {
    if n > 0 {
      EndsBytes(n - 1, a);
      assert Ends(n, a)[1..] == Ends(n - 1, a);
    }
  }

  /** The file with the rows of `n` ended runs and one older row. */
  lemma FileIs(n: nat, a: string, oldest: Run)
    requires oldest.id == "r" && oldest.startedAt == 0
    ensures UniqueIds(Ends(n, a) + [oldest]) && NewestFirst(Ends(n, a) + [oldest])
    ensures RowBytes(Size, Ends(n, a) + [oldest]) == n * (604 + 2 * |a|) + 4 + Size(oldest)
    ensures |Ends(n, a)| == n && RowBytes(Size, Ends(n, a)) == n * (604 + 2 * |a|)
  {
    EndsAre(n, a);
    EndsBytes(n, a);
    RowBytesConcat(Size, Ends(n, a), [oldest]);
    forall i, j | 0 <= i < j < n + 1 ensures (Ends(n, a) + [oldest])[i].id != (Ends(n, a) + [oldest])[j].id {
      NamesDiffer(n - 1 - i, if j < n then n - 1 - j else n - 1 - i);
    }
  }

  function Table0(n: nat, a: string): map<string, Run> {
    if n == 0 then map["r" := LONG_ROW] else Table0(n - 1, a)[Name(n - 1) := ShortEnded(n - 1, a)]
  }

  lemma UpdatesCommute(m: map<string, Run>, a: string, b: string, x: Run, y: Run)
    requires a != b
    ensures m[a := x][b := y] == m[b := y][a := x]
  {
  }

  lemma {:induction false} TableIs(n: nat, a: string, oldest: Run)
    requires oldest.id == "r" && oldest.startedAt == 0
    ensures UniqueIds(Ends(n, a) + [oldest]) && Table(Ends(n, a) + [oldest]) == Table0(n, a)["r" := oldest]
  {
    FileIs(n, a, oldest);
    if n == 0 {
      TableStarts(a, oldest);
    } else {
      TableIs(n - 1, a, oldest);
      TableGrows(n - 1, a, oldest);
    }
  }

  lemma TableStarts(a: string, oldest: Run)
    requires oldest.id == "r"
    ensures UniqueIds(Ends(0, a) + [oldest]) && Table(Ends(0, a) + [oldest]) == Table0(0, a)["r" := oldest]
  {
    assert Ends(0, a) + [oldest] == [oldest];
    TableOfOne(oldest);
  }

  lemma TableOfOne(r: Run)
    ensures UniqueIds([r]) && Table([r]) == map[r.id := r]
  {
  }

  lemma EndsNext(n: nat, a: string, oldest: Run)
    ensures Ends(n + 1, a) + [oldest] == [ShortEnded(n, a)] + (Ends(n, a) + [oldest])
  {
  }

  lemma TableGrows(n: nat, a: string, oldest: Run)
    requires oldest.id == "r" && UniqueIds(Ends(n, a) + [oldest]) && UniqueIds(Ends(n + 1, a) + [oldest])
    requires Table(Ends(n, a) + [oldest]) == Table0(n, a)["r" := oldest]
    ensures Table(Ends(n + 1, a) + [oldest]) == Table0(n + 1, a)["r" := oldest]
  {
    NamesDiffer(n, n);
    EndsNext(n, a, oldest);
    GrowsBy(Ends(n, a) + [oldest], ShortEnded(n, a), Table0(n, a), oldest);
  }

  lemma GrowsBy(rows: seq<Run>, r: Run, m: map<string, Run>, oldest: Run)
    requires UniqueIds(rows) && UniqueIds([r] + rows) && Table(rows) == m["r" := oldest] && r.id != "r"
    ensures Table([r] + rows) == m[r.id := r]["r" := oldest]
  {
    AddFront(rows, r);
    UpdatesCommute(m, "r", r.id, oldest, r);
  }

  lemma AddFront(rows: seq<Run>, r: Run)
    requires UniqueIds(rows) && UniqueIds([r] + rows)
    ensures Table([r] + rows) == Table(rows)[r.id := r]
  {
    forall x ensures x in [r] + rows <==> x == r || x in rows { }
    forall x | x in rows ensures x.id != r.id {
      var i :| 0 <= i < |rows| && rows[i] == x;
      assert ([r] + rows)[i + 1] == x && ([r] + rows)[0] == r;
    }
  }

  // ------------------------------------------------------- one run after another

  /** `n` short runs have come and gone, and the long one is still going. */
  ghost predicate Filled(s: State, n: nat, a: string) {
    Onward(Size, START, s) && s.rows == Table0(n, a) && s.registry == OWNER && s.meta == map[] && s.dmu.None? &&
    !s.shutdown && ("A", "a") in s.sessions && s.h.faulted == {} && "r" in s.h.activated &&
    |s.threads| >= 2 && s.threads[1] == Op(Watcher, "r", LONG_ROW, Poll) &&
    forall i :: i >= n ==> Name(i) !in s.h.drawnBy && ("C", Name(i)) !in s.h.chats
  }

  /** The next short run is under way: `x` differs from `s` in this. */
  ghost predicate Doing(s: State, x: State, n: nat, tail: seq<Thread>, meta: map<string, nat>, dmu: Option<nat>,
                        registry: Registry, rows: map<string, Run>)
  {
    Onward(Size, START, x) && x.threads == s.threads + tail && x.meta == meta && x.dmu == dmu &&
    x.registry == registry && x.rows == rows && !x.shutdown && s.sessions <= x.sessions && x.h.faulted == {} &&
    "r" in x.h.activated && (forall i :: i > n ==> Name(i) !in x.h.drawnBy && ("C", Name(i)) !in x.h.chats)
  }

  function Starting(n: nat, run: Run, pc: Pc): Thread { Op(Starter(Short(n), false), Name(n), run, pc) }
  function Watching(n: nat, pc: Pc): Thread { Op(Watcher, Name(n), ShortRow(n), pc) }

  /** Thread `t` of `x`, the one at the end, moves. */
  lemma LastMoves(s: State, before: Thread, now: Thread)
    ensures (s.threads + [before])[|s.threads| := now] == s.threads + [now]
  {
  }

  lemma ShortIsAsked(s: State, n: nat, a: string) returns (x: State)
    requires Filled(s, n, a)
    ensures Doing(s, x, n, [Starting(n, NO_RUN, LockFirst)], map[], None, OWNER, Table0(n, a))
    ensures ("C", Name(n)) !in x.h.chats
  {
    OneCharacterNames();
    NamesDiffer(n, n);
    OnwardNext(Size, START, s, StartRun(Short(n)));
    x := Next(s, StartRun(Short(n)));
    forall i | i > n ensures Name(i) !in x.h.drawnBy { NamesDiffer(i, n); }
  }

  lemma ShortLocks(s: State, y: State, n: nat, a: string) returns (x: State)
    requires Doing(s, y, n, [Starting(n, NO_RUN, LockFirst)], map[], None, OWNER, Table0(n, a))
    requires ("C", Name(n)) !in y.h.chats
    ensures Doing(s, x, n, [Starting(n, NO_RUN, LockSecond)], map["A" := |s.threads|], None, OWNER, Table0(n, a))
    ensures ("C", Name(n)) !in x.h.chats
  {
    NoLess();
    var t := |s.threads|;
    assert y.threads[t] == Starting(n, NO_RUN, LockFirst);
    OnwardNext(Size, START, y, Move(t, PICK));
    x := Next(y, Move(t, PICK));
    LastMoves(s, Starting(n, NO_RUN, LockFirst), Starting(n, NO_RUN, LockSecond));
  }

  lemma NoLess()
    ensures FirstLock(Short(0)) == "A" && SecondLock(Short(0)) == "C"
    ensures forall n :: FirstLock(Short(n)) == "A" && SecondLock(Short(n)) == "C"
  {
    assert !Text.Less("C", "A");
  }

  lemma ShortLocksBoth(s: State, y: State, n: nat, a: string) returns (x: State)
    requires Doing(s, y, n, [Starting(n, NO_RUN, LockSecond)], map["A" := |s.threads|], None, OWNER, Table0(n, a))
    requires ("C", Name(n)) !in y.h.chats
    ensures Doing(s, x, n, [Starting(n, NO_RUN, Create)], map["A" := |s.threads|, "C" := |s.threads|], None, OWNER,
                  Table0(n, a))
    ensures ("C", Name(n)) !in x.h.chats
  {
    NoLess();
    var t := |s.threads|;
    assert y.threads[t] == Starting(n, NO_RUN, LockSecond);
    OnwardNext(Size, START, y, Move(t, PICK));
    x := Next(y, Move(t, PICK));
    LastMoves(s, Starting(n, NO_RUN, LockSecond), Starting(n, NO_RUN, Create));
  }

  lemma ShortIsCreated(s: State, y: State, n: nat, a: string) returns (x: State)
    requires Doing(s, y, n, [Starting(n, NO_RUN, Create)], map["A" := |s.threads|, "C" := |s.threads|], None, OWNER,
                   Table0(n, a))
    requires ("C", Name(n)) !in y.h.chats && ("A", "a") in s.sessions
    ensures Doing(s, x, n, [Starting(n, ShortRow(n), Claim)], map["A" := |s.threads|, "C" := |s.threads|], None, OWNER,
                  Table0(n, a))
  {
    NamesDiffer(n, n);
    var t, c := |s.threads|, PICK.(name := Name(n), now := n + 1);
    assert y.threads[t] == Starting(n, NO_RUN, Create);
    OnwardNext(Size, START, y, Move(t, c));
    x := Next(y, Move(t, c));
    LastMoves(s, Starting(n, NO_RUN, Create), Starting(n, ShortRow(n), Claim));
    forall i | i > n ensures ("C", Name(i)) !in x.h.chats { NamesDiffer(i, n); }
  }

  function Both(n: nat): Registry { OWNER[Name(n) := HandleOf(ShortRow(n))] }

  lemma ShortMayClaim(n: nat)
    ensures MayOwn(OWNER, ShortRow(n), HandleOf(ShortRow(n)), false)
  {
    NamesDiffer(n, n);
    assert OWNER.Keys == {"r"} && |OWNER.Keys| == 1;
  }

  lemma ShortClaims(s: State, y: State, n: nat, a: string) returns (x: State)
    requires Doing(s, y, n, [Starting(n, ShortRow(n), Claim)], map["A" := |s.threads|, "C" := |s.threads|], None, OWNER,
                   Table0(n, a))
    ensures Doing(s, x, n, [Starting(n, ShortRow(n), Append)], map["A" := |s.threads|, "C" := |s.threads|],
                  Some(|s.threads|), Both(n), Table0(n, a))
  {
    ShortMayClaim(n);
    var t := |s.threads|;
    assert y.threads[t] == Starting(n, ShortRow(n), Claim);
    ClaimLeads(y, t, PICK);
    OnwardNext(Size, START, y, Move(t, PICK));
    x := Next(y, Move(t, PICK));
    LastMoves(s, Starting(n, ShortRow(n), Claim), Starting(n, ShortRow(n), Append));
  }

  // ------------------------------------------------ what fits is kept by retention

  lemma FittingIsKept(bytes: Run -> nat, rows: seq<Run>)
    requires UniqueIds(rows) && NewestFirst(rows) && Fits(bytes, rows)
    ensures Retained(bytes, Table(rows), {})
  {
    SortedStays(rows);
    assert rows[..|rows|] == rows && rows[|rows|..] == [] && rows + [] == rows;
    assert CutAt(rows, |rows|, rows, []) && NoMoreThanNeeded(bytes, rows, |rows|);
    assert Retains(bytes, rows, rows, []);
    assert Ids([]) == {};
  }

  lemma {:induction false} LongIsThere(n: nat, a: string)
    ensures "r" in Table0(n, a) && Table0(n, a)["r"] == LONG_ROW
    ensures forall id :: id in Table0(n, a) ==> |id| <= n + 1
    ensures forall id :: id in Table0(n, a) && id != "r" ==> !Live(Table0(n, a)[id])
  {
    if n > 0 {
      LongIsThere(n - 1, a);
      NamesDiffer(n - 1, n - 1);
    }
  }

  lemma NewIsNew(n: nat, a: string)
    ensures Name(n) !in Table0(n, a)
  {
    LongIsThere(n, a);
  }

  /** The row of the next short run, new or ended. */
  predicate NextRow(n: nat, a: string, row: Run) {
    row.id == Name(n) && row.startedAt == n + 1 && |row.detail.answer| <= |a|
  }

  lemma NextFits(n: nat, a: string, row: Run)
    requires NextRow(n, a, row) && n < MANY && |a| <= BODY
    ensures Fits(Size, [row] + (Ends(n, a) + [LONG_ROW]))
  {
    FileIs(n, a, LONG_ROW);
    var rows := Ends(n, a) + [LONG_ROW];
    assert ([row] + rows)[1..] == rows;
    Affordable(n, |a|);
  }

  lemma Affordable(n: nat, size: nat)
    requires n <= MANY && size <= BODY
    ensures n * (604 + 2 * size) <= MANY * (604 + 2 * BODY)
  {
    assert n * (604 + 2 * size) <= MANY * (604 + 2 * size);
  }

  lemma NextIsOrdered(n: nat, a: string, row: Run)
    requires NextRow(n, a, row)
    ensures UniqueIds([row] + (Ends(n, a) + [LONG_ROW])) && NewestFirst([row] + (Ends(n, a) + [LONG_ROW]))
  {
    FileIs(n, a, LONG_ROW);
    EndsAre(n, a);
    NamesDiffer(n, n);
    var rows := Ends(n, a) + [LONG_ROW];
    forall j | 0 <= j < |rows| ensures rows[j].id != row.id && rows[j].startedAt <= row.startedAt {
      if j < n { NamesDiffer(n, n - 1 - j); }
    }
  }

  lemma NextIsKept(n: nat, a: string, row: Run)
    requires NextRow(n, a, row) && n < MANY && |a| <= BODY
    ensures Retained(Size, Table0(n, a)[Name(n) := row], {})
  {
    NextFits(n, a, row);
    NextIsOrdered(n, a, row);
    TableIs(n, a, LONG_ROW);
    LongIsThere(n, a);
    assert Table0(n, a)["r" := LONG_ROW] == Table0(n, a);
    AddFront(Ends(n, a) + [LONG_ROW], row);
    FittingIsKept(Size, [row] + (Ends(n, a) + [LONG_ROW]));
  }

  // --------------------------------------------------------- a short run, cont'd

  /** The table may be written, and nothing has to go. */
  lemma AppendIsGenuine(y: State, t: nat, n: nat, a: string)
    requires n < MANY && |a| <= BODY && t < |y.threads| && y.threads[t] == Starting(n, ShortRow(n), Append)
    requires y.rows == Table0(n, a)
    ensures Can(y, Move(t, PICK)) && Genuine(Size, y, Move(t, PICK)) && Next(y, Move(t, PICK)) == AppendStep(y, t, PICK)
  {
    NextIsKept(n, a, ShortRow(n));
    NewIsNew(n, a);
    LongIsThere(n, a);
    AppendLeads(y, t, PICK);
  }

  lemma ShortIsWritten(s: State, y: State, n: nat, a: string) returns (x: State)
    requires n < MANY && |a| <= BODY
    requires Doing(s, y, n, [Starting(n, ShortRow(n), Append)], map["A" := |s.threads|, "C" := |s.threads|],
                   Some(|s.threads|), Both(n), Table0(n, a))
    ensures Doing(s, x, n, [Starting(n, ShortRow(n), Activate)], map["A" := |s.threads|, "C" := |s.threads|],
                  Some(|s.threads|), Both(n), Table0(n, a)[Name(n) := ShortRow(n)])
  {
    var t := |s.threads|;
    AppendIsGenuine(y, t, n, a);
    OnwardNext(Size, START, y, Move(t, PICK));
    x := AppendStep(y, t, PICK);
    LastMoves(s, Starting(n, ShortRow(n), Append), Starting(n, ShortRow(n), Activate));
    assert x.rows == Table0(n, a)[Name(n) := ShortRow(n)];
  }

  lemma ShortIsActive(s: State, y: State, n: nat, rows: map<string, Run>) returns (x: State)
    requires Doing(s, y, n, [Starting(n, ShortRow(n), Activate)], map["A" := |s.threads|, "C" := |s.threads|],
                   Some(|s.threads|), Both(n), rows)
    ensures Doing(s, x, n, [Starting(n, ShortRow(n), Spawn)], map[], None, Both(n), rows)
  {
    var t := |s.threads|;
    assert y.threads[t] == Starting(n, ShortRow(n), Activate);
    ActivateLeads(y, t, PICK);
    OnwardNext(Size, START, y, Move(t, PICK));
    x := Next(y, Move(t, PICK));
    LastMoves(s, Starting(n, ShortRow(n), Activate), Starting(n, ShortRow(n), Spawn));
    assert Both(n)[Name(n) := HandleOf(ShortRow(n))] == Both(n);
    assert map["A" := t, "C" := t] - {"A", "C"} == map[];
  }

  function Started(n: nat): Thread { Starting(n, ShortRow(n), Done(true)) }

  lemma ShortIsSpawned(s: State, y: State, n: nat, rows: map<string, Run>) returns (x: State)
    requires Doing(s, y, n, [Starting(n, ShortRow(n), Spawn)], map[], None, Both(n), rows)
    ensures Doing(s, x, n, [Started(n), Watching(n, Poll)], map[], None, Both(n), rows)
  {
    var t := |s.threads|;
    assert y.threads[t] == Starting(n, ShortRow(n), Spawn);
    OnwardNext(Size, START, y, Move(t, PICK));
    x := Next(y, Move(t, PICK));
    LastMoves(s, Starting(n, ShortRow(n), Spawn), Started(n));
    assert s.threads + [Started(n)] + [Watching(n, Poll)] == s.threads + [Started(n), Watching(n, Poll)];
  }

  lemma WatcherMoves(s: State, n: nat, before: Thread, now: Thread)
    ensures (s.threads + [Started(n), before])[|s.threads| + 1 := now] == s.threads + [Started(n), now]
  {
  }

  lemma ShortIsPolled(s: State, y: State, n: nat, rows: map<string, Run>) returns (x: State)
    requires Doing(s, y, n, [Started(n), Watching(n, Poll)], map[], None, Both(n), rows)
    ensures Doing(s, x, n, [Started(n), Watching(n, Load)], map[], None, Both(n), rows)
  {
    NamesDiffer(n, n);
    OwnerOfItsRow(ShortRow(n), ShortRow(n));
    var w := |s.threads| + 1;
    assert y.threads[w] == Watching(n, Poll);
    OnwardNext(Size, START, y, Move(w, PICK));
    x := Next(y, Move(w, PICK));
    WatcherMoves(s, n, Watching(n, Poll), Watching(n, Load));
  }

  lemma ShortIsDone(s: State, y: State, n: nat, rows: map<string, Run>) returns (x: State)
    requires Doing(s, y, n, [Started(n), Watching(n, Load)], map[], None, Both(n), rows)
    requires Name(n) in rows && rows[Name(n)] == ShortRow(n)
    ensures Doing(s, x, n, [Started(n), Watching(n, Finish)], map[], None, Both(n), rows)
  {
    var w := |s.threads| + 1;
    assert y.threads[w] == Watching(n, Load);
    OnwardNext(Size, START, y, Move(w, PICK));
    x := Next(y, Move(w, PICK));
    WatcherMoves(s, n, Watching(n, Load), Watching(n, Finish));
  }

  lemma FinishSavesShort(y: State, w: nat, n: nat, a: string)
    requires w < |y.threads| && y.threads[w] == Watching(n, Finish)
    requires y.rows == Table0(n, a)[Name(n) := ShortRow(n)]
    ensures Saving(y, w, Ending(a)) && Saved(y, w, Ending(a)) == Table0(n, a)[Name(n) := ShortEnded(n, a)]
    ensures y.rows[Name(n) := ShortEnded(n, a)] == Table0(n, a)[Name(n) := ShortEnded(n, a)]
  {
  }

  lemma FinishLeads(y: State, w: nat, n: nat, a: string)
    requires w < |y.threads| && y.threads[w] == Watching(n, Finish)
    ensures Can(y, Move(w, Ending(a))) && Next(y, Move(w, Ending(a))) == FinishStep(y, w, Ending(a))
  {
  }

  lemma FinishIsGenuine(y: State, w: nat, n: nat, a: string)
    requires n < MANY && |a| <= BODY && w < |y.threads| && y.threads[w] == Watching(n, Finish)
    requires y.rows == Table0(n, a)[Name(n) := ShortRow(n)]
    ensures Genuine(Size, y, Move(w, Ending(a))) && y.rows[Name(n) := ShortEnded(n, a)] == Table0(n + 1, a)
  {
    NextIsKept(n, a, ShortEnded(n, a));
    FinishSavesShort(y, w, n, a);
  }

  lemma ShortEnds(s: State, y: State, n: nat, a: string) returns (x: State)
    requires n < MANY && |a| <= BODY
    requires Doing(s, y, n, [Started(n), Watching(n, Finish)], map[], None, Both(n),
                   Table0(n, a)[Name(n) := ShortRow(n)])
    ensures Doing(s, x, n, [Started(n), Watching(n, Emit(true))], map[], None, Both(n), Table0(n + 1, a))
  {
    var w := |s.threads| + 1;
    FinishLeads(y, w, n, a);
    FinishIsGenuine(y, w, n, a);
    OnwardNext(Size, START, y, Move(w, Ending(a)));
    x := FinishStep(y, w, Ending(a));
    WatcherMoves(s, n, Watching(n, Finish), Watching(n, Emit(true)));
    assert Table0(n + 1, a) - {} == Table0(n + 1, a);
  }

  lemma ShortIsAnnounced(s: State, y: State, n: nat, rows: map<string, Run>) returns (x: State)
    requires Doing(s, y, n, [Started(n), Watching(n, Emit(true))], map[], None, Both(n), rows)
    ensures Doing(s, x, n, [Started(n), Watching(n, Release(false))], map[], None, Both(n), rows)
  {
    var w := |s.threads| + 1;
    assert y.threads[w] == Watching(n, Emit(true));
    OnwardNext(Size, START, y, Move(w, PICK));
    x := Next(y, Move(w, PICK));
    WatcherMoves(s, n, Watching(n, Emit(true)), Watching(n, Release(false)));
  }

  lemma ShortIsReleased(s: State, y: State, n: nat, rows: map<string, Run>) returns (x: State)
    requires Doing(s, y, n, [Started(n), Watching(n, Release(false))], map[], None, Both(n), rows)
    ensures Doing(s, x, n, [Started(n), Watching(n, Done(true))], map[], None, OWNER, rows)
  {
    NamesDiffer(n, n);
    OwnerOfItsRow(ShortRow(n), ShortRow(n));
    var w := |s.threads| + 1;
    assert y.threads[w] == Watching(n, Release(false));
    OnwardNext(Size, START, y, Move(w, PICK));
    x := Next(y, Move(w, PICK));
    WatcherMoves(s, n, Watching(n, Release(false)), Watching(n, Done(true)));
    assert Both(n) - {Name(n)} == OWNER;
  }

  /** One more short run comes and goes. */
  lemma OneShort(s: State, n: nat, a: string) returns (x: State)
    requires Filled(s, n, a) && n < MANY && |a| <= BODY
    ensures Filled(x, n + 1, a)
  {
    x := ShortIsAsked(s, n, a);
    x := ShortLocks(s, x, n, a);
    x := ShortLocksBoth(s, x, n, a);
    x := ShortIsCreated(s, x, n, a);
    x := ShortClaims(s, x, n, a);
    x := ShortIsWritten(s, x, n, a);
    var rows := Table0(n, a)[Name(n) := ShortRow(n)];
    x := ShortIsActive(s, x, n, rows);
    x := ShortIsSpawned(s, x, n, rows);
    x := ShortIsPolled(s, x, n, rows);
    x := ShortIsDone(s, x, n, rows);
    x := ShortEnds(s, x, n, a);
    x := ShortIsAnnounced(s, x, n, Table0(n + 1, a));
    x := ShortIsReleased(s, x, n, Table0(n + 1, a));
  }

  lemma {:induction false} Fill(s: State, n: nat, a: string) returns (x: State)
    requires Filled(s, 0, a) && n <= MANY && |a| <= BODY
    ensures Filled(x, n, a)
  {
    x := s;
    if n > 0 {
      x := Fill(s, n - 1, a);
      x := OneShort(x, n - 1, a);
    }
  }

  // ----------------------------------------------------------------- the long run

  lemma ChatAIsOpen() returns (s: State)
    ensures Onward(Size, START, s) && s == START.(sessions := {("A", "a")}, h := START.h.(chats := {("A", "a")}))
  {
    OnwardStays(Size, START);
    OnwardNext(Size, START, START, NewChat(("A", "a")));
    s := Next(START, NewChat(("A", "a")));
  }

  ghost predicate Long(s: State, pc: Pc, meta: map<string, nat>, dmu: Option<nat>, registry: Registry,
                       rows: map<string, Run>)
  {
    Onward(Size, START, s) && s.threads == [Op(Starter(LONG, false), "r", LONG_ROW, pc)] && s.meta == meta &&
    s.dmu == dmu && s.registry == registry && s.rows == rows && !s.shutdown && ("A", "a") in s.sessions &&
    s.h.faulted == {} && s.h.drawnBy.Keys == {"r"} && s.h.chats == {("A", "a"), ("B", "c")}
  }

  const LOCKED: map<string, nat> := map["A" := 0, "B" := 0]

  lemma LongIsCreated() returns (s: State)
    ensures Long(s, Claim, LOCKED, None, map[], map[])
  {
    OneCharacterNames();
    s := ChatAIsOpen();
    OnwardNext(Size, START, s, StartRun(LONG)); s := Next(s, StartRun(LONG));
    OnwardNext(Size, START, s, Move(0, PICK)); s := Next(s, Move(0, PICK));
    OnwardNext(Size, START, s, Move(0, PICK)); s := Next(s, Move(0, PICK));
    var c := PICK.(name := "c");
    OnwardNext(Size, START, s, Move(0, c)); s := Next(s, Move(0, c));
  }

  lemma LongClaims() returns (s: State)
    ensures Long(s, Append, LOCKED, Some(0), OWNER, map[])
  {
    s := LongIsCreated();
    OnwardNext(Size, START, s, Move(0, PICK)); s := Next(s, Move(0, PICK));
  }

  lemma LongIsKept()
    ensures Retained(Size, map["r" := LONG_ROW], {})
  {
    TableOfOne(LONG_ROW);
    FileIs(0, "", LONG_ROW);
    assert Ends(0, "") + [LONG_ROW] == [LONG_ROW];
    assert Size(LONG_ROW) == 600;
    FittingIsKept(Size, [LONG_ROW]);
  }

  lemma LongIsGenuine(s: State)
    requires Long(s, Append, LOCKED, Some(0), OWNER, map[])
    ensures Can(s, Move(0, PICK)) && Genuine(Size, s, Move(0, PICK)) && Next(s, Move(0, PICK)) == AppendStep(s, 0, PICK)
  {
    LongIsKept();
    AppendLeads(s, 0, PICK);
    assert Saved(s, 0, PICK) == map["r" := LONG_ROW];
  }

  lemma LongIsWritten() returns (s: State)
    ensures Long(s, Activate, LOCKED, Some(0), OWNER, map["r" := LONG_ROW])
  {
    var x := LongClaims();
    LongIsGenuine(x);
    OnwardNext(Size, START, x, Move(0, PICK));
    s := AppendStep(x, 0, PICK);
    assert s.rows == map["r" := LONG_ROW];
  }

  lemma LongIsActive() returns (s: State)
    ensures Long(s, Spawn, map[], None, OWNER, map["r" := LONG_ROW]) && "r" in s.h.activated
  {
    s := LongIsWritten();
    ActivateLeads(s, 0, PICK);
    OnwardNext(Size, START, s, Move(0, PICK)); s := Next(s, Move(0, PICK));
  }

  lemma LongIsUp(a: string) returns (s: State)
    ensures Filled(s, 0, a)
  {
    s := LongIsActive();
    OnwardNext(Size, START, s, Move(0, PICK)); s := Next(s, Move(0, PICK));
    forall i ensures Name(i) !in s.h.drawnBy { NamesDiffer(i, i); }
  }

  /** The long run's monitor sees that its child is idle. */
  lemma LongPolls(s: State, n: nat, a: string) returns (x: State)
    requires Filled(s, n, a)
    ensures Onward(Size, START, x) && x.rows == Table0(n, a) && x.registry == OWNER && x.h.faulted == {}
    ensures "r" in x.h.activated
    ensures |x.threads| >= 2 && x.threads[1] == Op(Watcher, "r", LONG_ROW, Load)
  {
    OwnerOfItsRow(LONG_ROW, LONG_ROW);
    OnwardNext(Size, START, s, Move(1, PICK));
    x := Next(s, Move(1, PICK));
  }

  lemma LongIsIdle(s: State, n: nat, a: string) returns (x: State)
    requires Onward(Size, START, s) && s.rows == Table0(n, a) && s.registry == OWNER && s.h.faulted == {}
    requires "r" in s.h.activated
    requires |s.threads| >= 2 && s.threads[1] == Op(Watcher, "r", LONG_ROW, Load)
    ensures Onward(Size, START, x) && x.rows == Table0(n, a) && x.registry == OWNER && x.h.faulted == {}
    ensures "r" in x.h.activated
    ensures |x.threads| >= 2 && x.threads[1] == Op(Watcher, "r", LONG_ROW, Finish)
  {
    LongIsThere(n, a);
    OnwardNext(Size, START, s, Move(1, PICK));
    x := LoadStep(s, 1, PICK);
  }

  /** `MANY` short runs fill the file so far that the long one does not fit any more. */
  lemma LongOverflows(s: State, a: string)
    requires |a| == BODY && s.rows == Table0(MANY, a)
    requires |s.threads| >= 2 && s.threads[1] == Op(Watcher, "r", LONG_ROW, Finish)
    ensures AboutToEnd(s, 1, Ending(a)) && Overflows(Size, s, 1, Ending(a), Ends(MANY, a))
  {
    LongIsThere(MANY, a);
    var row := Ended(LONG_ROW, Ending(a));
    FileIs(MANY, a, row);
    TableIs(MANY, a, row);
  }

  /** No disk fault is needed for a run to be announced twice, only retention: 125 runs
      with answers of full length come and go while one run is going on. When it ends
      as well, its row is dropped at once; a cancellation that comes before its monitor
      is gone finds the owner but no row, and reports a storage error. */
  lemma RetentionMayAnnounceTwice(a: string) returns (s: State)
    requires |a| == BODY
    ensures Onward(Size, START, s) && AnnouncedTwice(s, "r") && "r" !in s.h.faulted
  {
    var x := LongIsUp(a);
    x := Fill(x, MANY, a);
    x := LongPolls(x, MANY, a);
    x := LongIsIdle(x, MANY, a);
    LongOverflows(x, a);
    StartIsReachable();
    OnwardReachable(Size, START, x);
    s := OverflowAnnouncesTwice(Size, x, 1, Ending(a), Ends(MANY, a));
    OnwardJoins(Size, START, x, s);
  }

  lemma StartIsReachable()
    ensures Reachable(START)
  {
    assert Feasible(START, []) && After(START, []) == START;
  }

  lemma {:induction false} GenuineJoins(bytes: Run -> nat, s: State, a: seq<Step>, b: seq<Step>)
    requires Feasible(s, a) && Genuinely(bytes, s, a)
    requires Feasible(After(s, a), b) && Genuinely(bytes, After(s, a), b)
    ensures Feasible(s, a + b) && Genuinely(bytes, s, a + b) && After(s, a + b) == After(After(s, a), b)
    decreases |a|
  {
    if a == [] {
      assert a + b == b;
    } else {
      GenuineJoins(bytes, Next(s, a[0]), a[1..], b);
      JoinsFrom(bytes, s, a, b);
    }
  }

  lemma JoinsFrom(bytes: Run -> nat, s: State, a: seq<Step>, b: seq<Step>)
    requires a != [] && Feasible(s, a) && Genuinely(bytes, s, a)
    requires var s1 := Next(s, a[0]);
             Feasible(s1, a[1..] + b) && Genuinely(bytes, s1, a[1..] + b)
    ensures Feasible(s, a + b) && Genuinely(bytes, s, a + b)
    ensures After(s, a + b) == After(Next(s, a[0]), a[1..] + b)
  {
    GenuinelyFrom(bytes, s, a[0], a[1..] + b);
    assert [a[0]] + (a[1..] + b) == a + b;
  }

  lemma OnwardJoins(bytes: Run -> nat, s: State, x: State, s': State)
    requires Onward(bytes, s, x) && Onward(bytes, x, s')
    ensures Onward(bytes, s, s')
  {
    var a :| Feasible(s, a) && Genuinely(bytes, s, a) && After(s, a) == x;
    var b :| Feasible(x, b) && Genuinely(bytes, x, b) && After(x, b) == s';
    GenuineJoins(bytes, s, a, b);
  }
}
