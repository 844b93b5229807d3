/** What callers may rely on: consequences of the invariant for every reachable
    state, and the runs that show why the guarantees stop where they do. */
module DelegationGuarantees {
  import opened DelegationRuns
  import opened DelegationStore
  import opened DelegationRegistry
  import opened DelegationProtocol
  import opened DelegationInvariant
  import opened DelegationTheorems
  import Text
  import opened Wrappers

  ghost predicate Reachable(s: State) { exists steps :: Feasible(START, steps) && After(START, steps) == s }

  lemma ReachableIsOk(s: State)
    requires Reachable(s)
    ensures Inv(s)
  {
    var steps :| Feasible(START, steps) && After(START, steps) == s;
    StartIsOk();
    RunKeeps(START, steps);
  }

  lemma {:induction false} OneMore(s: State, steps: seq<Step>, step: Step)
    requires Feasible(s, steps) && Can(After(s, steps), step)
    ensures Feasible(s, steps + [step]) && After(s, steps + [step]) == Next(After(s, steps), step)
    decreases |steps|
  {
    if steps == [] {
      assert [step][1..] == [];
    } else {
      assert (steps + [step])[1..] == steps[1..] + [step];
      OneMore(Next(s, steps[0]), steps[1..], step);
    }
  }

  lemma Reaches(s: State, step: Step)
    requires Reachable(s) && Can(s, step)
    ensures Reachable(Next(s, step))
  {
    var steps :| Feasible(START, steps) && After(START, steps) == s;
    OneMore(START, steps, step);
  }

  // ---------------------------------------------------- the store in between

  /** Whatever retention drops when the store writes a finished row, the protocol
      allows: the store's contract is one of the steps. */
  lemma FinishingIsAStep(s: State, t: nat, c: Choice, after: map<string, Run>, evicted: seq<Run>)
    requires t < |s.threads| && s.threads[t].Op? && s.threads[t].pc.Finish? && Terminal(c.status) && !c.fault
    requires s.threads[t].id in s.rows && Live(s.rows[s.threads[t].id])
    requires SavedAs(s.rows[s.threads[t].id := Ended(s.rows[s.threads[t].id], c)], after, evicted)
    ensures var c' := c.(evict := Ids(evicted));
            Can(s, Move(t, c')) && Next(s, Move(t, c')).rows == after
  {
  }

  /** And so is its append. */
  lemma AppendingIsAStep(s: State, t: nat, c: Choice, after: map<string, Run>, evicted: seq<Run>)
    requires t < |s.threads| && s.threads[t].Op? && s.threads[t].kind.Starter? && s.threads[t].pc.Append? && !c.fault
    requires s.threads[t].id !in s.rows
    requires forall x :: x in s.rows && Live(s.rows[x]) ==> s.rows[x].to != s.threads[t].run.to
    requires SavedAs(s.rows[s.threads[t].id := s.threads[t].run], after, evicted)
    ensures var c' := c.(evict := Ids(evicted));
            Can(s, Move(t, c')) && Next(s, Move(t, c')).rows == after
  {
  }

  /** A start's three steps under delegationMu, taken in a row, are publication as a
      whole (Owners.PublishAndStart): row and owner appear, and nothing else changes
      in the registry. */
  lemma PublishingIsThreeSteps(s: State, t: nat, c: Choice, after: map<string, Run>, evicted: seq<Run>)
    requires IsStarter(s, t, Claim) && s.dmu.None? && !c.fault && !c.refuse
    requires s.threads[t].id == s.threads[t].run.id
    requires MayPublish(s, s.threads[t].kind.req, s.threads[t].run)
    requires s.threads[t].id !in s.rows
    requires forall x :: x in s.rows && Live(s.rows[x]) ==> s.rows[x].to != s.threads[t].run.to
    requires SavedAs(s.rows[s.threads[t].id := s.threads[t].run], after, evicted)
    ensures var move := Move(t, c.(evict := Ids(evicted)));
            Feasible(s, [move, move, move]) &&
            var s' := After(s, [move, move, move]);
            s'.registry == s.registry[s.threads[t].id := HandleOf(s.threads[t].run)] && s'.rows == after && s'.dmu.None?
  {
    var th, c' := s.threads[t], c.(evict := Ids(evicted));
    EvictedMayGo(s.rows[th.id := th.run], after, evicted);
    ClaimLeads(s, t, c');
    AppendLeads(ClaimStep(s, t, true), t, c');
    ActivateLeads(AppendStep(ClaimStep(s, t, true), t, c'), t, c');
    PublishedIs(s, t, c');
    ThreeSteps(s, Move(t, c'));
  }

  function Published(s: State, t: nat, c: Choice): State
    requires IsStarter(s, t, Claim)
  {
    ActivateStep(AppendStep(ClaimStep(s, t, true), t, c), t, c)
  }

  lemma PublishedIs(s: State, t: nat, c: Choice)
    requires IsStarter(s, t, Claim) && !c.fault && !c.refuse
    ensures IsStarter(AppendStep(ClaimStep(s, t, true), t, c), t, Activate)
    ensures var th, s' := s.threads[t], Published(s, t, c);
            s'.registry == s.registry[th.id := HandleOf(th.run)] && s'.rows == s.rows[th.id := th.run] - c.evict &&
            s'.dmu.None?
  {
    var th, s1 := s.threads[t], ClaimStep(s, t, true);
    assert s1.registry == s.registry || s1.registry == s.registry[th.id := HandleOf(th.run)];
  }

  lemma ClaimLeads(s: State, t: nat, c: Choice)
    requires IsStarter(s, t, Claim) && s.dmu.None? && MayPublish(s, s.threads[t].kind.req, s.threads[t].run)
    ensures Can(s, Move(t, c)) && Next(s, Move(t, c)) == ClaimStep(s, t, true)
  {
  }

  lemma AppendLeads(s: State, t: nat, c: Choice)
    requires IsStarter(s, t, Append) && !c.fault && s.threads[t].id !in s.rows
    requires forall x :: x in s.rows && Live(s.rows[x]) ==> s.rows[x].to != s.threads[t].run.to
    requires MayEvict(s.rows[s.threads[t].id := s.threads[t].run], c.evict)
    ensures Can(s, Move(t, c)) && Next(s, Move(t, c)) == AppendStep(s, t, c)
  {
  }

  lemma ActivateLeads(s: State, t: nat, c: Choice)
    requires IsStarter(s, t, Activate)
    ensures Can(s, Move(t, c)) && Next(s, Move(t, c)) == ActivateStep(s, t, c)
  {
  }

  lemma ThreeSteps(s: State, step: Step)
    requires Can(s, step) && Can(Next(s, step), step) && Can(Next(Next(s, step), step), step)
    ensures Feasible(s, [step, step, step])
    ensures After(s, [step, step, step]) == Next(Next(Next(s, step), step), step)
  {
    assert [step, step, step][1..] == [step, step] && [step, step][1..] == [step] && [step][1..] == [];
    assert Feasible(Next(Next(s, step), step), [step]) && Feasible(Next(s, step), [step, step]);
    assert After(Next(Next(s, step), step), [step]) == Next(Next(Next(s, step), step), step);
  }

  lemma EvictedMayGo(changed: map<string, Run>, after: map<string, Run>, evicted: seq<Run>)
    requires SavedAs(changed, after, evicted)
    ensures MayEvict(changed, Ids(evicted)) && after == changed - Ids(evicted)
  {
  }

  // -------------------------------------------------------------- ownership

  /** Whenever no publication is in progress, every row that is not terminal has
      its exact live owner, unless the disk failed on that very run or the studio
      is shutting down. */
  lemma LiveRowsAreOwned(s: State, id: string)
    requires Reachable(s) && s.dmu.None? && !s.shutdown
    requires id in s.rows && Live(s.rows[id]) && id !in s.h.faulted
    ensures Owns(s.registry, s.rows[id]) && s.rows[id].id == id
  {
    ReachableIsOk(s);
  }

  /** Few runs at a time, one for each target, in the registry and in the store. */
  lemma CapsHold(s: State)
    requires Reachable(s)
    ensures Bounded(s.registry)
    ensures forall a, b :: a in s.rows && b in s.rows && Live(s.rows[a]) && Live(s.rows[b]) && s.rows[a].to == s.rows[b].to ==>
              a == b
  {
    ReachableIsOk(s);
  }

  // ------------------------------------------------------------ ending a run

  /** A terminal row is never changed again, and an evicted row never comes back,
      whatever runs afterwards. */
  lemma TerminalIsForever(s: State, later: seq<Step>, id: string)
    requires Reachable(s) && Feasible(s, later)
    requires id in s.h.ident && (id in s.rows ==> !Live(s.rows[id]))
    ensures id in After(s, later).rows ==> id in s.rows && After(s, later).rows[id] == s.rows[id]
  {
    ReachableIsOk(s);
    RunKeeps(s, later);
  }

  /** A run's end is announced at most once as a completion and at most once as a
      storage error; a completion is announced by the operation whose write made the
      row terminal, a storage error by the one that took the owner. */
  lemma EndIsAnnouncedOnce(s: State, i: nat, j: nat)
    requires Reachable(s) && i < |s.events| && j < |s.events| && s.events[i].id == s.events[j].id
    ensures s.events[i].storage == s.events[j].storage ==> i == j
    ensures var e := s.events[i];
            if e.storage then e.id in s.h.taken && s.h.taken[e.id] == e.author
            else e.id in s.h.winner && s.h.winner[e.id] == e.author && (e.id in s.rows ==> !Live(s.rows[e.id]))
  {
    ReachableIsOk(s);
  }

  // ------------------------------------------------------------------ deleting

  /** Once a chat was deleted, no later state has a live owner with that chat at
      either end, and every row naming it is settled. */
  lemma DeletedStaysUntouched(s: State, t: nat, later: seq<Step>)
    requires Reachable(s) && Feasible(s, later)
    requires t < |s.threads| && s.threads[t].Sweep? && s.threads[t].what.DeleteChat? && s.threads[t].spc == SDone(true)
    ensures var s' := After(s, later);
            var chat := (s.threads[t].project, s.threads[t].session);
            chat !in s'.sessions && Untouched(s', chat)
  {
    ReachableIsOk(s);
    assert ThreadOk(s, t);
    RunKeeps(s, later);
  }

  // ---------------------------------------------------------- batches

  /** A reservation that a cancellation removed never becomes a run: no row, no
      owner, no entry at all, in every later state. */
  lemma WithdrawnNeverRuns(s: State, later: seq<Step>, id: string)
    requires Reachable(s) && Feasible(s, later) && id in s.h.withdrawn
    ensures var s' := After(s, later);
            id !in s'.registry && id !in s'.rows && id !in s'.h.ident && id !in s'.h.activated
  {
    ReachableIsOk(s);
    RunKeeps(s, later);
  }

  /** A batch that failed to reserve changes nothing; otherwise every target gets
      its slot at once. */
  lemma ReservesAllOrNothing(s: State, t: nat, c: Choice)
    requires Can(s, Move(t, c)) && s.threads[t].Batch? && s.threads[t].bpc.BReserve?
    ensures var s' := Next(s, Move(t, c));
            if s'.threads[t].bpc == BDone(0, false) then s'.registry == s.registry
            else |s'.registry| == |s.registry| + |s.threads[t].targets| &&
                 (forall id :: id in s.registry ==> id in s'.registry && s'.registry[id] == s.registry[id]) &&
                 (forall i :: 0 <= i < |c.ids| ==>
                    c.ids[i] in s'.registry && s'.registry[c.ids[i]].reserved &&
                    s'.registry[c.ids[i]].to == s.threads[t].targets[i])
  {
    ReserveLeads(s, t, c);
    ReserveOutcome(s, t, c);
  }

  lemma ReserveLeads(s: State, t: nat, c: Choice)
    requires Can(s, Move(t, c)) && s.threads[t].Batch? && s.threads[t].bpc.BReserve?
    ensures |c.ids| == |s.threads[t].targets| && FreshIds(s.registry, c.ids)
    ensures Next(s, Move(t, c)) == ReserveStep(s, t, c)
  {
  }

  lemma ReserveOutcome(s: State, t: nat, c: Choice)
    requires t < |s.threads| && s.threads[t].Batch? && |c.ids| == |s.threads[t].targets| && FreshIds(s.registry, c.ids)
    ensures var s' := ReserveStep(s, t, c);
            if s'.threads[t].bpc == BDone(0, false) then s'.registry == s.registry
            else |s'.registry| == |s.registry| + |s.threads[t].targets| &&
                 (forall id :: id in s.registry ==> id in s'.registry && s'.registry[id] == s.registry[id]) &&
                 (forall i :: 0 <= i < |c.ids| ==>
                    c.ids[i] in s'.registry && s'.registry[c.ids[i]].reserved &&
                    s'.registry[c.ids[i]].to == s.threads[t].targets[i])
  {
    var th := s.threads[t];
    WithSlotsAdds(s.registry, th.from, th.fromSession, th.batch, th.targets, c.ids);
  }

  lemma ReservationsAreNoRuns(s: State, id: string)
    requires Reachable(s) && id in s.h.activated && id in s.registry
    ensures !s.registry[id].reserved
  {
    ReachableIsOk(s);
  }

  /** Clearing a batch's leftover reservations never removes a run that has begun. */
  lemma CleaningSparesRuns(s: State, t: nat, c: Choice, id: string)
    requires Reachable(s) && Can(s, Move(t, c)) && s.threads[t].Batch? && s.threads[t].bpc.BClean?
    requires id in s.registry && (id in s.h.activated || !s.registry[id].reserved)
    ensures id in Next(s, Move(t, c)).registry && Next(s, Move(t, c)).registry[id] == s.registry[id]
  {
    if id in s.h.activated { ReservationsAreNoRuns(s, id); }
    assert Next(s, Move(t, c)) == BatchStep(s, t, c);
  }

  /** A batch that failed has left no reservation, and each of its members never
      began or is over; one that succeeded has begun every member. */
  lemma BatchEndsClean(s: State, t: nat, j: nat)
    requires Reachable(s) && t < |s.threads| && s.threads[t].Batch? && s.threads[t].bpc.BDone?
    requires j < |s.threads[t].reqs|
    ensures var id := s.threads[t].reqs[j].id;
            (id in s.registry ==> !s.registry[id].reserved) &&
            (if s.threads[t].bpc.ok then id in s.h.activated
             else id !in s.h.launched || id in s.h.refused || (id in s.h.activated && Settled(s, id)))
  {
    ReachableIsOk(s);
    assert ThreadOk(s, t);
  }

  // ------------------------------------------------- where the guarantees stop

  const PICK := Choice(false, false, "", [], 0, {}, Completed, "", "", Detail("", [], [], false), Finish)

  lemma OneCharacterNames()
    ensures NormalizedSession("a") == "a" && Text.Less("A", "B") && !Text.Less("B", "A")
  {
  }

  /** The state after one more step of thread `t`. */
  ghost function Moved(s: State, t: nat, c: Choice): State
    requires Can(s, Move(t, c))
  {
    Next(s, Move(t, c))
  }

  lemma Goes(s: State, t: nat, c: Choice)
    requires Reachable(s) && Can(s, Move(t, c))
    ensures Reachable(Moved(s, t, c))
  {
    Reaches(s, Move(t, c));
  }

  lemma ChatIsOpen() returns (s: State)
    ensures Reachable(s) && s == START.(sessions := {("A", "a")}, h := START.h.(chats := {("A", "a")}))
  {
    assert Feasible(START, []) && After(START, []) == START;
    Reaches(START, NewChat(("A", "a")));
    s := Next(START, NewChat(("A", "a")));
  }

  lemma BatchIsWaiting() returns (s: State)
    ensures Reachable(s) &&
            s.threads == [Batch("A", "a", "g", ["B"], [], BReserve), Sweep(DeleteChat, "A", "a", [], {}, SLock)]
    ensures s.sessions == {("A", "a")} && s.registry == map[] && s.meta == map[] && s.dmu == None && !s.shutdown
    ensures s.h == START.h.(chats := {("A", "a")})
  {
    OneCharacterNames();
    s := ChatIsOpen();
    var batch := StartBatch("A", "a", "g", ["B"]);
    Reaches(s, batch); s := Next(s, batch);
    var sweep := SweepChat(DeleteChat, "A", "a");
    Reaches(s, sweep); s := Next(s, sweep);
  }

  lemma ChatIsDeleted() returns (s: State)
    ensures Reachable(s) && |s.threads| == 2 && s.threads[0] == Batch("A", "a", "g", ["B"], [], BReserve)
    ensures s.registry == map[] && s.dmu == None && !s.shutdown && s.h.faulted == {} && s.h.drawnBy == map[]
    ensures s.h.deleted == {("A", "a")}
  {
    s := BatchIsWaiting();
    Goes(s, 1, PICK); s := Moved(s, 1, PICK);
    assert s.threads[1] == Sweep(DeleteChat, "A", "a", [], {}, SSnapshot);
    assert Touching(s, "A", "a") == {};
    Goes(s, 1, PICK); s := Moved(s, 1, PICK);
    assert s.threads[1] == Sweep(DeleteChat, "A", "a", [], {}, SNext(0));
    Goes(s, 1, PICK); s := Moved(s, 1, PICK);
  }

  /** A reservation may name a chat that has already been deleted: reserving takes
      delegationMu only and never asks whether the source chat still exists. By
      DeletedStaysUntouched the slot can never become a run. */
  lemma ReservationMayNameDeletedChat() returns (s: State)
    ensures Reachable(s) && s.h.faulted == {} && !s.shutdown && ("A", "a") in s.h.deleted
    ensures "r" in s.registry && s.registry["r"].reserved && Touches(s.registry["r"], "A", "a")
  {
    OneCharacterNames();
    s := ChatIsDeleted();
    var draw := PICK.(ids := ["r"]);
    Goes(s, 0, draw);
    s := Moved(s, 0, draw);
  }
}
