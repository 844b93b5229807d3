/** How a batch waits for its runs (waitForDelegationBatch, internal/studio/delegation_batch.go):
    in each round it loads one row after the other, and asks for the owner of the first
    one that is not terminal. Row and owner are read in two sections, with any steps of
    the protocol in between. */
module DelegationWaiting {
  import opened DelegationRuns
  import opened DelegationStore
  import opened DelegationRegistry
  import opened DelegationProtocol
  import opened DelegationInvariant
  import opened DelegationTheorems
  import opened DelegationGuarantees
  import opened DelegationEviction

  // ----------------------------------------------------------------- one round

  // The states in which a run's row is loaded and its owner asked for.
  datatype Visit = Visit(load: State, ask: State)

  // Gone: "delegation run disappeared"; Ownerless: "non-terminal delegation has no live
  // owner". Both end the wait, and no results are posted.
  datatype Verdict = Ready | Pending | Gone(id: string) | Ownerless(id: string)

  function Look(visit: Visit, id: string): Verdict {
    if id !in visit.load.rows then Gone(id)
    else if !Live(visit.load.rows[id]) then Ready
    else if Owns(visit.ask.registry, visit.load.rows[id]) then Pending
    else Ownerless(id)
  }

  /** The first run that is not over decides. */
  function Verdicts(visits: seq<Visit>, ids: seq<string>): Verdict
    requires |visits| == |ids|
  {
    if ids == [] then Ready
    else if Look(visits[0], ids[0]).Ready? then Verdicts(visits[1..], ids[1..])
    else Look(visits[0], ids[0])
  }

  method Round(visits: seq<Visit>, ids: seq<string>) returns (v: Verdict)
    requires |visits| == |ids|
    ensures v == Verdicts(visits, ids)
  {
    var i, pending := 0, false;
    while i < |ids|
      invariant 0 <= i <= |ids|
      invariant Verdicts(visits, ids) == Verdicts(visits[i..], ids[i..])
      invariant !pending
    {
      var id := ids[i];
      assert visits[i..][1..] == visits[i + 1..] && ids[i..][1..] == ids[i + 1..];
      if id !in visits[i].load.rows {
        return Gone(id);
      }
      var run := visits[i].load.rows[id];
      if Live(run) {
        if !Owns(visits[i].ask.registry, run) {
          return Ownerless(id);
        }
        pending := true;
        break;
      }
      i := i + 1;
    }
    return if pending then Pending else Ready;
  }

  lemma {:induction false} ReadyExactly(visits: seq<Visit>, ids: seq<string>)
    requires |visits| == |ids|
    ensures Verdicts(visits, ids).Ready? <==> forall j :: 0 <= j < |ids| ==> Look(visits[j], ids[j]).Ready?
  {
    if ids != [] {
      ReadyExactly(visits[1..], ids[1..]);
      if forall j :: 0 <= j < |ids| ==> Look(visits[j], ids[j]).Ready? {
        forall j | 0 <= j < |ids[1..]| ensures Look(visits[1..][j], ids[1..][j]).Ready? {
          assert visits[1..][j] == visits[j + 1] && ids[1..][j] == ids[j + 1];
        }
      } else if Look(visits[0], ids[0]).Ready? {
        var j :| 0 <= j < |ids| && !Look(visits[j], ids[j]).Ready?;
        assert visits[1..][j - 1] == visits[j] && ids[1..][j - 1] == ids[j];
      }
    }
  }

  // ------------------------------------------------------------- one after another

  ghost predicate Later(s: State, s': State) { exists steps :: Feasible(s, steps) && After(s, steps) == s' }

  /** Where the round goes on after visit `j`. */
  function Then(visits: seq<Visit>, end: State, j: nat): State {
    if j + 1 < |visits| then visits[j + 1].load else end
  }

  /** The visits are made in turn, and the round is over in `end`. */
  ghost predicate InTurn(visits: seq<Visit>, end: State) {
    forall j :: 0 <= j < |visits| ==> GoesOn(visits, end, j)
  }

  ghost predicate GoesOn(visits: seq<Visit>, end: State, j: nat)
    requires j < |visits|
  {
    Later(visits[j].load, visits[j].ask) && Later(visits[j].ask, Then(visits, end, j))
  }

  lemma LaterJoins(a: State, b: State, c: State)
    requires Later(a, b) && Later(b, c)
    ensures Later(a, c)
  {
    var x :| Feasible(a, x) && After(a, x) == b;
    var y :| Feasible(b, y) && After(b, y) == c;
    JoinsOn(a, x, y);
  }

  lemma LaterIsReachable(s: State, s': State)
    requires Reachable(s) && Later(s, s')
    ensures Reachable(s')
  {
    LaterJoins(START, s, s');
  }

  lemma VisitLeadsOn(visits: seq<Visit>, end: State, j: nat)
    requires InTurn(visits, end) && j < |visits|
    ensures Later(visits[j].load, Then(visits, end, j))
  {
    assert GoesOn(visits, end, j);
    LaterJoins(visits[j].load, visits[j].ask, Then(visits, end, j));
  }

  lemma {:induction false} VisitsLeadOn(visits: seq<Visit>, end: State, j: nat)
    requires InTurn(visits, end) && j < |visits|
    ensures Later(visits[j].load, end)
    decreases |visits| - j
  {
    VisitLeadsOn(visits, end, j);
    if j + 1 < |visits| {
      VisitsLeadOn(visits, end, j + 1);
      LaterJoins(visits[j].load, visits[j + 1].load, end);
    }
  }

  lemma {:induction false} VisitsAreReachable(visits: seq<Visit>, end: State, j: nat)
    requires InTurn(visits, end) && j < |visits| && Reachable(visits[0].load)
    ensures Reachable(visits[j].load)
    decreases j
  {
    if j > 0 {
      VisitsAreReachable(visits, end, j - 1);
      VisitLeadsOn(visits, end, j - 1);
      LaterIsReachable(visits[j - 1].load, visits[j].load);
    }
  }

  // --------------------------------------------------------------- what it says

  /** If the round finds nothing pending, every run is over when it ends, although the
      rows were loaded at different times, and stays so. */
  lemma ReadyIsForAll(visits: seq<Visit>, ids: seq<string>, end: State, j: nat)
    requires |visits| == |ids| && j < |ids| && InTurn(visits, end) && Reachable(visits[0].load)
    requires Verdicts(visits, ids).Ready?
    ensures ids[j] in end.rows ==> !Live(end.rows[ids[j]])
    ensures ids[j] in end.h.winner
  {
    var s, id := visits[j].load, ids[j];
    ReadyExactly(visits, ids);
    assert Look(visits[j], id).Ready?;
    VisitsLeadOn(visits, end, j);
    VisitsAreReachable(visits, end, j);
    ReachableIsOk(s);
    var later :| Feasible(s, later) && After(s, later) == end;
    TerminalIsForever(s, later, id);
    OverIsWon(s, id);
    RunKeeps(s, later);
  }

  lemma OverIsWon(s: State, id: string)
    requires Reachable(s) && id in s.h.ident && (id in s.rows ==> !Live(s.rows[id]))
    ensures id in s.h.winner
  {
    ReachableIsAccounted(s);
  }

  /** A run that the batch started is reported as disappeared exactly if its row was
      dropped, and then it is over. */
  lemma GoneIsOver(visit: Visit, id: string)
    requires Reachable(visit.load) && id in visit.load.h.activated
    ensures Look(visit, id).Gone? <==> id !in visit.load.rows
    ensures Look(visit, id).Gone? ==> id in visit.load.h.winner
  {
    ReachableIsOk(visit.load);
    if id !in visit.load.rows { OverIsWon(visit.load, id); }
  }

  /** A run whose row is live is reported as ownerless exactly if its entry is gone when
      the owner is asked for. Short of a disk fault on it and of a shutdown, that report
      is always wrong: the run was ended, by somebody, after its row had been loaded. */
  lemma OwnerlessExactly(visit: Visit, id: string)
    requires Reachable(visit.load) && Later(visit.load, visit.ask) && visit.ask.dmu.None?
    requires id in visit.load.h.activated && id in visit.load.rows && Live(visit.load.rows[id])
    ensures Look(visit, id) == Ownerless(id) <==> id !in visit.ask.registry
    ensures Look(visit, id) == Ownerless(id) && id !in visit.ask.h.faulted && !visit.ask.shutdown ==>
              (id in visit.ask.rows ==> !Live(visit.ask.rows[id])) &&
              id in visit.ask.h.winner && id !in visit.load.h.winner
  {
    var s, s' := visit.load, visit.ask;
    var later :| Feasible(s, later) && After(s, later) == s';
    LaterIsReachable(s, s');
    ReachableIsOk(s);
    RunKeeps(s, later);
    EntryIsOwner(s, s', id);
    if id !in s'.registry && id !in s'.h.faulted && !s'.shutdown {
      if id in s'.rows && Live(s'.rows[id]) {
        LiveRowsAreOwned(s', id);
        assert false;
      }
      OverIsWon(s', id);
    }
  }

  /** The entry of a run that began is the exact owner of every earlier row of it. */
  lemma EntryIsOwner(s: State, s': State, id: string)
    requires Inv(s) && Inv(s') && Grows(s, s') && s'.dmu.None? && id in s.h.activated && id in s.rows
    ensures Owns(s'.registry, s.rows[id]) <==> id in s'.registry
  {
    assert s'.h.ident[id] == s.h.ident[id] && SameRun(s.rows[id], s.h.ident[id]);
    if id in s'.registry {
      OwnerOfItsRow(s'.h.ident[id], s.rows[id]);
    }
  }

  // ---------------------------------------------------- when it may be wrong: always

  /** From `s0` on nothing happened to the run, and no publication is in progress. */
  ghost predicate StillGoing(s0: State, s: State, id: string) {
    Reachable(s0) && Later(s0, s) && s.rows == s0.rows && s.dmu.None? && !s.shutdown && id !in s.h.faulted &&
    id in s.h.activated && id in s.registry && id in s.rows && Live(s.rows[id])
  }

  lemma LaterNext(s0: State, s: State, step: Step)
    requires Later(s0, s) && Can(s, step)
    ensures Later(s0, Next(s, step))
  {
    var steps :| Feasible(s0, steps) && After(s0, steps) == s;
    OneMore(s0, steps, step);
  }

  /** Thread `n` is a cancellation of the run. */
  ghost predicate Ending(s: State, n: nat, id: string, pc: Pc) {
    n < |s.threads| && s.threads[n].Op? && s.threads[n].kind.Canceller? && s.threads[n].id == id && s.threads[n].pc == pc
  }

  lemma CancelBegins(s0: State, s: State, id: string) returns (s': State)
    requires StillGoing(s0, s, id)
    ensures StillGoing(s0, s', id) && Ending(s', |s.threads|, id, Lookup)
  {
    LaterNext(s0, s, CancelRun(id));
    s' := Next(s, CancelRun(id));
  }

  lemma CancelFindsOwner(s0: State, s: State, id: string, n: nat) returns (s': State)
    requires StillGoing(s0, s, id) && Ending(s, n, id, Lookup)
    ensures StillGoing(s0, s', id) && Ending(s', n, id, Finish) && s'.threads[n].kind.live
  {
    LaterIsReachable(s0, s);
    ReservationsAreNoRuns(s, id);
    LaterNext(s0, s, Move(n, PICK));
    s' := LookupStep(s, n);
  }

  /** Retention may drop what it has to. */
  lemma CancelEnds(s0: State, s: State, id: string, n: nat, evict: set<string>) returns (s': State)
    requires StillGoing(s0, s, id) && Ending(s, n, id, Finish) && s.threads[n].kind.live
    requires MayEvict(s.rows[id := Ended(s.rows[id], PICK)], evict)
    ensures Later(s0, s') && s'.dmu.None? && !s'.shutdown && id !in s'.h.faulted
    ensures Ending(s', n, id, Release(true))
  {
    var c := PICK.(evict := evict);
    LaterNext(s0, s, Move(n, c));
    s' := FinishStep(s, n, c);
  }

  lemma CancelReleases(s0: State, s: State, id: string, n: nat) returns (s': State)
    requires Later(s0, s) && s.dmu.None? && !s.shutdown && id !in s.h.faulted && Ending(s, n, id, Release(true))
    ensures Later(s0, s') && s'.dmu.None? && !s'.shutdown && id !in s'.h.faulted && id !in s'.registry
  {
    LaterNext(s0, s, Move(n, PICK));
    s' := ReleaseStep(s, n);
  }

  /** Whenever the row of a started run is loaded and live, short of faults and between
      publications, the wrong report is possible, whatever retention drops. */
  lemma MayLookOwnerless(s: State, id: string, evict: set<string>) returns (s': State)
    requires Reachable(s) && s.dmu.None? && !s.shutdown && id in s.h.activated && id !in s.h.faulted
    requires id in s.rows && Live(s.rows[id]) && MayEvict(s.rows[id := Ended(s.rows[id], PICK)], evict)
    ensures Later(s, s') && s'.dmu.None? && !s'.shutdown && id !in s'.h.faulted
    ensures Look(Visit(s, s'), id) == Ownerless(id)
  {
    LiveRowsAreOwned(s, id);
    assert Feasible(s, []) && After(s, []) == s;
    s' := CancelBegins(s, s, id);
    s' := CancelFindsOwner(s, s', id, |s.threads|);
    s' := CancelEnds(s, s', id, |s.threads|, evict);
    s' := CancelReleases(s, s', id, |s.threads|);
    OwnerlessExactly(Visit(s, s'), id);
  }
}
