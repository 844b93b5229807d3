/** When a run's end is announced twice: exactly if retention drops the row of a run
    whose owner is still registered. */
module DelegationEviction {
  import opened DelegationRuns
  import opened DelegationStore
  import opened DelegationRegistry
  import opened DelegationProtocol
  import opened DelegationInvariant
  import opened DelegationTheorems
  import opened DelegationGuarantees
  import opened DelegationAnnouncing
  import opened Wrappers

  /** Every run that is over was ended by somebody; a registered run without a row lost
      it to retention; and nobody takes an owner for a store error that was none. */
  ghost predicate Accounted(s: State) {
    (forall id :: id in s.h.ident && (id in s.rows ==> !Live(s.rows[id])) ==> id in s.h.winner) &&
    (forall id :: id in s.h.ident && id in s.registry ==> id in s.rows || id in s.h.ousted) &&
    (forall id :: id in s.h.ousted ==> id in s.h.ident && id !in s.rows) &&
    (forall id :: id in s.h.taken ==> id in s.h.faulted || id in s.h.ousted)
  }

  /** A step that writes no row and registers no run that was written. */
  ghost predicate Writeless(s: State, s': State) {
    s'.rows == s.rows && s'.h.ident == s.h.ident && s'.h.ousted == s.h.ousted && s'.h.taken == s.h.taken &&
    s'.h.winner == s.h.winner && s.h.faulted <= s'.h.faulted &&
    forall id :: id in s'.registry && id in s.h.ident ==> id in s.registry
  }

  lemma WritelessKeeps(s: State, s': State)
    requires Accounted(s) && Writeless(s, s')
    ensures Accounted(s')
  {
  }

  /** A step that saves the table with one row put in, and retention applied. */
  ghost predicate SavesRow(s: State, s': State, c: Choice, row: Run) {
    s'.rows == s.rows[row.id := row] - c.evict && MayEvict(s.rows[row.id := row], c.evict) &&
    s'.registry == s.registry && s'.h.ousted == Ousted(s, c) && s'.h.taken == s.h.taken &&
    s'.h.faulted == s.h.faulted && s'.h.ident.Keys == s.h.ident.Keys + {row.id} &&
    (row.id in s.rows || row.id !in s.h.ident) && Extends(s.h.winner, s'.h.winner) &&
    (Live(row) || row.id in s'.h.winner)
  }

  lemma SavingKeeps(s: State, s': State, c: Choice, row: Run)
    requires Accounted(s) && RowsOk(s) && SavesRow(s, s', c, row)
    ensures Accounted(s')
  {
    forall id | id in s'.h.ident && (id in s'.rows ==> !Live(s'.rows[id])) ensures id in s'.h.winner {
      if id != row.id && id in c.evict { assert !Live(s.rows[id]); }
    }
  }

  lemma AppendAccounts(s: State, t: nat, c: Choice)
    requires Accounted(s) && Global(s) && Can(s, Move(t, c)) && s.threads[t].Op? && s.threads[t].pc.Append? && !c.fault
    requires ThreadOk(s, t) && IsStart(s.threads[t])
    ensures Accounted(AppendStep(s, t, c))
  {
    assert s.threads[t].run.id == s.threads[t].id;
    SavingKeeps(s, AppendStep(s, t, c), c, s.threads[t].run);
  }

  lemma TailSaves(s: State, t: nat, c: Choice)
    requires t < |s.threads| && s.threads[t].Op? && !c.fault && MayEvict(s.rows, c.evict)
    requires s.threads[t].id in s.rows && Live(s.rows[s.threads[t].id]) && s.rows[s.threads[t].id].id == s.threads[t].id
    requires s.threads[t].id in s.h.ident
    ensures SavesRow(s, TailStep(s, t, c), c, s.rows[s.threads[t].id].(detail := c.detail))
  {
  }

  lemma TailAccounts(s: State, t: nat, c: Choice)
    requires Accounted(s) && RowsOk(s) && HistoryOk(s) && t < |s.threads| && s.threads[t].Op?
    requires c.fault || s.threads[t].id !in s.rows || MayEvict(s.rows, c.evict)
    ensures Accounted(TailStep(s, t, c))
  {
    var id := s.threads[t].id;
    if !c.fault && id in s.rows && Live(s.rows[id]) {
      TailSaves(s, t, c);
      SavingKeeps(s, TailStep(s, t, c), c, s.rows[id].(detail := c.detail));
    } else {
      WritelessKeeps(s, TailStep(s, t, c));
    }
  }

  lemma FinishSaves(s: State, t: nat, c: Choice)
    requires t < |s.threads| && s.threads[t].Op? && !c.fault && s.threads[t].id !in s.h.winner
    requires s.threads[t].id in s.rows && Live(s.rows[s.threads[t].id]) && s.rows[s.threads[t].id].id == s.threads[t].id
    requires MayEvict(s.rows[s.threads[t].id := Ended(s.rows[s.threads[t].id], c)], c.evict)
    requires s.threads[t].id in s.h.ident
    ensures SavesRow(s, FinishStep(s, t, c), c, Ended(s.rows[s.threads[t].id], c))
  {
  }

  lemma FinishAccounts(s: State, t: nat, c: Choice)
    requires Accounted(s) && RowsOk(s) && HistoryOk(s) && t < |s.threads| && s.threads[t].Op?
    requires c.fault || s.threads[t].id !in s.rows ||
             MayEvict(s.rows[s.threads[t].id := Ended(s.rows[s.threads[t].id], c)], c.evict)
    ensures Accounted(FinishStep(s, t, c))
  {
    var id := s.threads[t].id;
    if !c.fault && id in s.rows && Live(s.rows[id]) {
      FinishSaves(s, t, c);
      SavingKeeps(s, FinishStep(s, t, c), c, Ended(s.rows[id], c));
    } else {
      WritelessKeeps(s, FinishStep(s, t, c));
    }
  }

  lemma TakeAccounts(s: State, t: nat)
    requires Accounted(s) && t < |s.threads| && s.threads[t].Op? && s.threads[t].pc.Take? && ThreadOk(s, t)
    ensures Accounted(TakeStep(s, t))
  {
    var th := s.threads[t];
    assert Excused(s, th.id) && th.run.id == th.id;
  }

  lemma PreparingIsWriteless(s: State, t: nat, c: Choice)
    requires Can(s, Move(t, c)) && IsStart(s.threads[t])
    requires s.threads[t].pc in {LockFirst, LockSecond, Create}
    ensures Writeless(s, OpStep(s, t, c))
  {
  }

  lemma ClaimIsWriteless(s: State, t: nat, ok: bool)
    requires t < |s.threads| && IsStart(s.threads[t]) && s.threads[t].id !in s.h.ident
    ensures Writeless(s, ClaimStep(s, t, ok))
  {
  }

  lemma PublishingIsWriteless(s: State, t: nat, c: Choice)
    requires Can(s, Move(t, c)) && IsStart(s.threads[t]) && ThreadOk(s, t)
    requires s.threads[t].pc in {Activate, Withdraw, Spawn} || (s.threads[t].pc.Append? && c.fault)
    ensures Writeless(s, OpStep(s, t, c))
  {
  }

  lemma PollIsWriteless(s: State, t: nat, c: Choice)
    requires t < |s.threads| && s.threads[t].Op?
    ensures Writeless(s, PollStep(s, t, c))
  {
  }

  lemma LoadIsWriteless(s: State, t: nat, c: Choice)
    requires t < |s.threads| && s.threads[t].Op?
    ensures Writeless(s, LoadStep(s, t, c))
  {
  }

  lemma ReloadIsWriteless(s: State, t: nat, c: Choice)
    requires t < |s.threads| && s.threads[t].Op?
    ensures Writeless(s, ReloadStep(s, t, c))
  {
  }

  lemma LookupIsWriteless(s: State, t: nat)
    requires t < |s.threads| && s.threads[t].Op? && s.threads[t].kind.Canceller?
    ensures Writeless(s, LookupStep(s, t))
  {
  }

  lemma ReadingAccounts(s: State, t: nat, c: Choice)
    requires Accounted(s) && Can(s, Move(t, c)) && s.threads[t].Op? && s.threads[t].pc in {Poll, Load, Reload, Lookup}
    ensures Accounted(OpStep(s, t, c))
  {
    if s.threads[t].pc.Poll? { PollIsWriteless(s, t, c); }
    else if s.threads[t].pc.Load? { LoadIsWriteless(s, t, c); }
    else if s.threads[t].pc.Reload? { ReloadIsWriteless(s, t, c); }
    else { LookupIsWriteless(s, t); }
    WritelessKeeps(s, OpStep(s, t, c));
  }

  lemma EndingIsWriteless(s: State, t: nat)
    requires t < |s.threads| && s.threads[t].Op?
    ensures Writeless(s, EmitStorageStep(s, t))
    ensures s.threads[t].pc.Release? ==> Writeless(s, ReleaseStep(s, t))
    ensures s.threads[t].pc.Emit? ==> Writeless(s, EmitStep(s, t))
  {
  }

  lemma StartAccounts(s: State, t: nat, c: Choice)
    requires Accounted(s) && Inv(s) && Can(s, Move(t, c)) && IsStart(s.threads[t]) && BeforeRun(s.threads[t].pc)
    ensures Accounted(OpStep(s, t, c))
  {
    assert ThreadOk(s, t);
    if s.threads[t].pc in {LockFirst, LockSecond, Create} {
      PreparingIsWriteless(s, t, c);
      WritelessKeeps(s, OpStep(s, t, c));
    } else if s.threads[t].pc.Claim? {
      ClaimIsWriteless(s, t, MayPublish(s, s.threads[t].kind.req, s.threads[t].run));
      WritelessKeeps(s, OpStep(s, t, c));
    } else if s.threads[t].pc.Append? && !c.fault {
      AppendAccounts(s, t, c);
    } else {
      PublishingIsWriteless(s, t, c);
      WritelessKeeps(s, OpStep(s, t, c));
    }
  }

  lemma OpAccounts(s: State, t: nat, c: Choice)
    requires Accounted(s) && Inv(s) && Can(s, Move(t, c)) && s.threads[t].Op?
    ensures Accounted(OpStep(s, t, c))
  {
    assert ThreadOk(s, t);
    if BeforeRun(s.threads[t].pc) { StartAccounts(s, t, c); }
    else if s.threads[t].pc.Tail? { TailAccounts(s, t, c); }
    else if s.threads[t].pc.Finish? { FinishAccounts(s, t, c); }
    else if s.threads[t].pc.Take? { TakeAccounts(s, t); }
    else if s.threads[t].pc in {Poll, Load, Reload, Lookup} {
      ReadingAccounts(s, t, c);
    } else {
      EndingIsWriteless(s, t);
      WritelessKeeps(s, OpStep(s, t, c));
    }
  }

  lemma SweepIsWriteless(s: State, t: nat, c: Choice)
    requires t < |s.threads| && s.threads[t].Sweep?
    ensures Writeless(s, SweepStep(s, t, c))
  {
  }

  lemma SlotsAreNew(th: Thread, reg: Registry, ids: seq<string>, ident: map<string, Run>)
    requires th.Batch? && |ids| == |th.targets| && FreshIds(reg, ids)
    requires forall i :: 0 <= i < |ids| ==> ids[i] !in ident
    ensures forall id ::
              id in WithSlots(reg, th.from, th.fromSession, th.batch, th.targets, ids) && id in ident ==> id in reg
  {
    WithSlotsAdds(reg, th.from, th.fromSession, th.batch, th.targets, ids);
  }

  lemma ReserveIsWriteless(s: State, t: nat, c: Choice)
    requires t < |s.threads| && s.threads[t].Batch? && |c.ids| == |s.threads[t].targets|
    requires FreshIds(s.registry, c.ids) && forall i :: 0 <= i < |c.ids| ==> c.ids[i] !in s.h.ident
    ensures Writeless(s, ReserveStep(s, t, c))
  {
    SlotsAreNew(s.threads[t], s.registry, c.ids, s.h.ident);
  }

  lemma ForkIsWriteless(s: State, t: nat, c: Choice)
    requires t < |s.threads| && s.threads[t].Batch? && BatchEnabled(s, s.threads[t].targets, s.threads[t].bpc, c)
    requires Forking(s.threads[t])
    ensures Writeless(s, BatchStep(s, t, c))
  {
    ForkKeepsRuns(s, t, c);
  }

  lemma ForkKeepsRuns(s: State, t: nat, c: Choice)
    requires t < |s.threads| && s.threads[t].Batch? && BatchEnabled(s, s.threads[t].targets, s.threads[t].bpc, c)
    requires Forking(s.threads[t])
    ensures var s' := BatchStep(s, t, c);
            s'.registry == s.registry && s'.rows == s.rows && s'.h == s.h.(launched := s'.h.launched)
  {
  }

  lemma BatchIsWriteless(s: State, t: nat, c: Choice)
    requires t < |s.threads| && s.threads[t].Batch? && BatchEnabled(s, s.threads[t].targets, s.threads[t].bpc, c)
    requires !s.threads[t].bpc.BReserve? && !Forking(s.threads[t])
    ensures Writeless(s, BatchStep(s, t, c))
  {
  }

  lemma MoveAccounts(s: State, t: nat, c: Choice)
    requires Accounted(s) && Inv(s) && Can(s, Move(t, c))
    ensures Accounted(Next(s, Move(t, c)))
  {
    match s.threads[t]
    case Op(_, _, _, _) => OpAccounts(s, t, c);
    case Sweep(_, _, _, _, _, _) =>
      SweepIsWriteless(s, t, c);
      WritelessKeeps(s, SweepStep(s, t, c));
    case Batch(_, _, _, _, _, _) =>
      if s.threads[t].bpc.BReserve? { ReserveIsWriteless(s, t, c); }
      else if Forking(s.threads[t]) { ForkIsWriteless(s, t, c); }
      else { BatchIsWriteless(s, t, c); }
      WritelessKeeps(s, BatchStep(s, t, c));
  }

  lemma CallIsWriteless(s: State, step: Step)
    requires Can(s, step) && !step.Move?
    ensures Writeless(s, Next(s, step))
  {
  }

  lemma StepAccounts(s: State, step: Step)
    requires Accounted(s) && Inv(s) && Can(s, step)
    ensures Accounted(Next(s, step))
  {
    if step.Move? {
      MoveAccounts(s, step.t, step.c);
    } else {
      CallIsWriteless(s, step);
      WritelessKeeps(s, Next(s, step));
    }
  }

  lemma {:induction false} RunAccounts(s: State, steps: seq<Step>)
    requires Accounted(s) && Inv(s) && Feasible(s, steps)
    ensures Accounted(After(s, steps))
    decreases |steps|
  {
    if steps != [] {
      StepKeeps(s, steps[0]);
      StepAccounts(s, steps[0]);
      RunAccounts(Next(s, steps[0]), steps[1..]);
    }
  }

  lemma ReachableIsAccounted(s: State)
    requires Reachable(s)
    ensures Accounted(s) && Told(s) && Inv(s)
  {
    var steps :| Feasible(START, steps) && After(START, steps) == s;
    StartIsOk();
    RunAccounts(START, steps);
    ReachableIsTold(s);
  }

  // --------------------------------------------------------------- the theorem

  ghost predicate AnnouncedTwice(s: State, id: string) { Announced(s, id, false) && Announced(s, id, true) }

  /** There is one announcement of a run's end in all, unless the disk failed on the run
      or retention dropped its row while its owner was registered. */
  lemma OneAnnouncementUnlessOusted(s: State, i: nat, j: nat)
    requires Reachable(s) && i < |s.events| && j < |s.events| && s.events[i].id == s.events[j].id
    requires s.events[i].id !in s.h.faulted + s.h.ousted
    ensures i == j && !s.events[i].storage
  {
    ReachableIsAccounted(s);
  }

  lemma SparedIsOnce(s: State, id: string)
    requires Reachable(s) && id !in s.h.faulted && id !in s.h.ousted
    ensures !AnnouncedTwice(s, id)
  {
    ReachableIsAccounted(s);
  }

  // ------------------------------------------------------- what retention does

  /** The step saves the table. */
  predicate Saving(s: State, t: nat, c: Choice) {
    t < |s.threads| && s.threads[t].Op? && !c.fault &&
    (s.threads[t].pc.Append? ||
     ((s.threads[t].pc.Tail? || s.threads[t].pc.Finish?) && s.threads[t].id in s.rows && Live(s.rows[s.threads[t].id])))
  }

  /** The table it saves, before retention. */
  function Saved(s: State, t: nat, c: Choice): map<string, Run>
    requires Saving(s, t, c)
  {
    var th := s.threads[t];
    if th.pc.Append? then s.rows[th.id := th.run]
    else if th.pc.Tail? then s.rows[th.id := s.rows[th.id].(detail := c.detail)]
    else s.rows[th.id := Ended(s.rows[th.id], c)]
  }

  /** Retention drops these rows of the table, in some order of its rows in the file. */
  ghost predicate Retained(bytes: Run -> nat, table: map<string, Run>, evict: set<string>) {
    exists rows, kept, evicted ::
      UniqueIds(rows) && Table(rows) == table && Retains(bytes, rows, kept, evicted) && Ids(evicted) == evict
  }

  /** The step drops what retention drops, given the length of each row's text. */
  ghost predicate Genuine(bytes: Run -> nat, s: State, step: Step) {
    step.Move? && Saving(s, step.t, step.c) ==> Retained(bytes, Saved(s, step.t, step.c), step.c.evict)
  }

  ghost predicate Genuinely(bytes: Run -> nat, s: State, steps: seq<Step>)
    requires Feasible(s, steps)
    decreases |steps|
  {
    steps == [] || (Genuine(bytes, s, steps[0]) && Genuinely(bytes, Next(s, steps[0]), steps[1..]))
  }

  /** `s'` is a later state than `s`, with real retention in between. */
  ghost predicate Onward(bytes: Run -> nat, s: State, s': State) {
    exists later :: Feasible(s, later) && Genuinely(bytes, s, later) && After(s, later) == s'
  }

  lemma OnwardStays(bytes: Run -> nat, s: State)
    ensures Onward(bytes, s, s)
  {
    assert Feasible(s, []) && Genuinely(bytes, s, []) && After(s, []) == s;
  }

  lemma {:induction false} GenuinelyMore(bytes: Run -> nat, s: State, steps: seq<Step>, step: Step)
    requires Feasible(s, steps) && Genuinely(bytes, s, steps)
    requires Can(After(s, steps), step) && Genuine(bytes, After(s, steps), step)
    ensures Feasible(s, steps + [step]) && Genuinely(bytes, s, steps + [step])
    decreases |steps|
  {
    OneMore(s, steps, step);
    if steps == [] {
      assert [step][1..] == [];
    } else {
      assert (steps + [step])[1..] == steps[1..] + [step];
      GenuinelyMore(bytes, Next(s, steps[0]), steps[1..], step);
    }
  }

  lemma OnwardNext(bytes: Run -> nat, s: State, s': State, step: Step)
    requires Onward(bytes, s, s') && Can(s', step) && Genuine(bytes, s', step)
    ensures Onward(bytes, s, Next(s', step))
  {
    var later :| Feasible(s, later) && Genuinely(bytes, s, later) && After(s, later) == s';
    OneMore(s, later, step);
    GenuinelyMore(bytes, s, later, step);
  }

  lemma {:induction false} JoinsOn(s: State, a: seq<Step>, b: seq<Step>)
    requires Feasible(s, a) && Feasible(After(s, a), b)
    ensures Feasible(s, a + b) && After(s, a + b) == After(After(s, a), b)
    decreases |a|
  {
    if a == [] {
      assert a + b == b;
    } else {
      assert (a + b)[1..] == a[1..] + b;
      JoinsOn(Next(s, a[0]), a[1..], b);
    }
  }

  lemma OnwardReachable(bytes: Run -> nat, s: State, s': State)
    requires Reachable(s) && Onward(bytes, s, s')
    ensures Reachable(s')
  {
    var steps :| Feasible(START, steps) && After(START, steps) == s;
    var later :| Feasible(s, later) && Genuinely(bytes, s, later) && After(s, later) == s';
    JoinsOn(START, steps, later);
  }

  // -------------------------------------------- an owned run that lost its row

  /** From `s0` on nothing else happened to the run, whose row is gone. */
  ghost predicate Since(bytes: Run -> nat, s0: State, s: State, id: string) {
    Reachable(s0) && Onward(bytes, s0, s) && Reachable(s) && s.h.ousted == s0.h.ousted && id !in s.h.faulted &&
    id in s.h.activated && id in s.h.ident && id !in s.rows
  }

  lemma SinceNext(bytes: Run -> nat, s0: State, s: State, id: string, step: Step)
    requires Since(bytes, s0, s, id) && Can(s, step) && !(step.Move? && Saving(s, step.t, step.c))
    requires var s' := Next(s, step);
             s'.h.ousted == s.h.ousted && id !in s'.h.faulted && s'.rows == s.rows &&
             s.h.activated <= s'.h.activated && id in s'.h.ident
    ensures Since(bytes, s0, Next(s, step), id)
  {
    OnwardNext(bytes, s0, s, step);
    OnwardReachable(bytes, s0, Next(s, step));
  }

  lemma SinceNow(bytes: Run -> nat, s: State, id: string)
    requires Reachable(s) && id in s.h.activated && id !in s.rows && id !in s.h.faulted
    ensures Since(bytes, s, s, id)
  {
    OnwardStays(bytes, s);
    ReachableIsOk(s);
  }

  const FAULT := PICK.(fault := true)

  ghost predicate AtStart(s: State, u: nat, pc: Pc) {
    s.dmu == Some(u) && u < |s.threads| && IsStart(s.threads[u]) && s.threads[u].pc == pc
  }

  lemma PublicationFails(bytes: Run -> nat, s0: State, s: State, id: string, u: nat) returns (s': State)
    requires Since(bytes, s0, s, id) && id in s.registry && AtStart(s, u, Append) && s.threads[u].id != id
    ensures Since(bytes, s0, s', id) && id in s'.registry && s'.dmu.None?
  {
    SinceNext(bytes, s0, s, id, Move(u, FAULT));
    s' := Next(s, Move(u, FAULT));
  }

  lemma PublicationEnds(bytes: Run -> nat, s0: State, s: State, id: string, u: nat) returns (s': State)
    requires Since(bytes, s0, s, id) && id in s.registry && AtStart(s, u, Activate)
    ensures Since(bytes, s0, s', id) && id in s'.registry && s'.dmu.None?
  {
    SinceNext(bytes, s0, s, id, Move(u, PICK));
    s' := Next(s, Move(u, PICK));
  }

  /** A publication in progress can be brought to an end. */
  lemma OwnersAreFreed(bytes: Run -> nat, s0: State, s: State, id: string) returns (s': State)
    requires Since(bytes, s0, s, id) && id in s.registry
    ensures Since(bytes, s0, s', id) && id in s'.registry && s'.dmu.None?
  {
    ReachableIsOk(s);
    s' := s;
    if s.dmu.Some? {
      var u := s.dmu.value;
      assert ThreadOk(s, u) && IsStart(s.threads[u]);
      if s.threads[u].pc.Append? {
        s' := PublicationFails(bytes, s0, s, id, u);
      } else {
        s' := PublicationEnds(bytes, s0, s, id, u);
      }
    }
  }

  /** Thread `n` is a cancellation that found the owner and then no row. */
  ghost predicate Cancels(s: State, n: nat, id: string, pc: Pc) {
    n < |s.threads| && s.threads[n].Op? && s.threads[n].id == id && s.threads[n].pc == pc && s.dmu.None? &&
    s.threads[n].kind.Canceller? &&
    (pc != Lookup ==> s.threads[n].kind.live && id in s.h.ident && s.threads[n].run == s.h.ident[id])
  }

  lemma CancelLooksUp(bytes: Run -> nat, s0: State, s: State, id: string) returns (s': State, n: nat)
    requires Since(bytes, s0, s, id) && id in s.registry && s.dmu.None?
    ensures Since(bytes, s0, s', id) && id in s'.registry && Cancels(s', n, id, Finish)
  {
    n := |s.threads|;
    SinceNext(bytes, s0, s, id, CancelRun(id));
    var s1 := Next(s, CancelRun(id));
    ReachableIsOk(s1);
    assert s1.threads[n] == Cancelling(s, id);
    SinceNext(bytes, s0, s1, id, Move(n, PICK));
    s' := Next(s1, Move(n, PICK));
  }

  lemma CancelFindsNoRow(bytes: Run -> nat, s0: State, s: State, id: string, n: nat) returns (s': State)
    requires Since(bytes, s0, s, id) && id in s.registry && Cancels(s, n, id, Finish)
    ensures Since(bytes, s0, s', id) && id in s'.registry && Cancels(s', n, id, Take)
  {
    SinceNext(bytes, s0, s, id, Move(n, PICK));
    s' := Next(s, Move(n, PICK));
  }

  lemma CancelTakesOwner(bytes: Run -> nat, s0: State, s: State, id: string, n: nat) returns (s': State)
    requires Since(bytes, s0, s, id) && id in s.registry && Cancels(s, n, id, Take)
    ensures Since(bytes, s0, s', id) && Cancels(s', n, id, EmitStorage)
  {
    ReachableIsOk(s);
    assert s.registry[id] == HandleOf(s.h.ident[id]) && s.h.ident[id].id == id;
    OwnerOfItsRow(s.h.ident[id], s.h.ident[id]);
    SinceNext(bytes, s0, s, id, Move(n, PICK));
    s' := Next(s, Move(n, PICK));
  }

  lemma CancelAnnounces(bytes: Run -> nat, s0: State, s: State, id: string, n: nat) returns (s': State)
    requires Since(bytes, s0, s, id) && Cancels(s, n, id, EmitStorage)
    ensures Since(bytes, s0, s', id) && s'.dmu.None? && Announced(s', id, true)
  {
    SinceNext(bytes, s0, s, id, Move(n, PICK));
    s' := Next(s, Move(n, PICK));
    assert s'.events[|s.events|] == Event(id, n, true);
  }

  /** Whoever ended the run gets to say so. */
  lemma EndIsAnnounced(bytes: Run -> nat, s0: State, s: State, id: string) returns (s': State)
    requires Since(bytes, s0, s, id) && s.dmu.None? && Announced(s, id, true)
    ensures Since(bytes, s0, s', id) && AnnouncedTwice(s', id)
  {
    ReachableIsAccounted(s);
    s' := s;
    if !Announced(s, id, false) {
      var w := s.h.winner[id];
      assert Owes(s, w, id, false) && ThreadOk(s, w);
      s' := EmitterIsReady(bytes, s0, s, id, w);
      s' := EmitterAnnounces(bytes, s0, s', id, w);
    }
  }

  lemma EmitterIsReady(bytes: Run -> nat, s0: State, s: State, id: string, w: nat) returns (s': State)
    requires Since(bytes, s0, s, id) && s.dmu.None? && Announced(s, id, true) && Owes(s, w, id, false) && ThreadOk(s, w)
    ensures Since(bytes, s0, s', id) && Announced(s', id, true)
    ensures w < |s'.threads| && s'.threads[w].Op? && s'.threads[w].id == id && s'.threads[w].pc == Emit(true)
  {
    s' := s;
    if s.threads[w].pc.Release? {
      ReleaseLeads(s, w);
      SinceNext(bytes, s0, s, id, Move(w, PICK));
      s' := ReleaseStep(s, w);
    }
  }

  lemma ReleaseLeads(s: State, w: nat)
    requires w < |s.threads| && s.threads[w].Op? && s.threads[w].pc == Release(true) && s.dmu.None? && ThreadOk(s, w)
    ensures Can(s, Move(w, PICK)) && Next(s, Move(w, PICK)) == ReleaseStep(s, w)
    ensures ReleaseStep(s, w) == s.(threads := s.threads[w := s.threads[w].(pc := Emit(true))],
                                    registry := ReleaseStep(s, w).registry, meta := ReleaseStep(s, w).meta)
  {
    assert !s.threads[w].kind.Watcher?;
  }

  lemma EmitterAnnounces(bytes: Run -> nat, s0: State, s: State, id: string, w: nat) returns (s': State)
    requires Since(bytes, s0, s, id) && Announced(s, id, true)
    requires w < |s.threads| && s.threads[w].Op? && s.threads[w].id == id && s.threads[w].pc == Emit(true)
    ensures Since(bytes, s0, s', id) && AnnouncedTwice(s', id)
  {
    SinceNext(bytes, s0, s, id, Move(w, PICK));
    s' := Next(s, Move(w, PICK));
    assert s'.events[|s.events|] == Event(id, w, false);
    AnnouncedStays(s, s', id, true);
  }

  lemma AnnouncedStays(s: State, s': State, id: string, storage: bool)
    requires s.events <= s'.events && Announced(s, id, storage)
    ensures Announced(s', id, storage)
  {
  }

  /** A cancellation that comes now will report a storage error for a run that ended
      without one. */
  lemma MissingRowAnnouncesTwice(bytes: Run -> nat, s: State, id: string) returns (s': State)
    requires Reachable(s) && id in s.h.activated && id in s.registry && id !in s.rows && id !in s.h.faulted
    ensures Since(bytes, s, s', id) && AnnouncedTwice(s', id)
  {
    SinceNow(bytes, s, id);
    s' := OwnersAreFreed(bytes, s, s, id);
    var n;
    s', n := CancelLooksUp(bytes, s, s', id);
    s' := CancelFindsNoRow(bytes, s, s', id, n);
    s' := CancelTakesOwner(bytes, s, s', id, n);
    s' := CancelAnnounces(bytes, s, s', id, n);
    s' := EndIsAnnounced(bytes, s, s', id);
  }

  /** From now on the disk does not fail on the run, and retention spares its row as
      long as its owner is registered. */
  ghost predicate Undisturbed(s: State, later: seq<Step>, id: string)
    requires Feasible(s, later)
  {
    id !in After(s, later).h.faulted && (id in After(s, later).h.ousted ==> id in s.h.ousted)
  }

  ghost predicate MayAnnounceTwice(s: State, id: string) {
    exists later :: Feasible(s, later) && Undisturbed(s, later, id) && AnnouncedTwice(After(s, later), id)
  }

  lemma OnwardDisturbsNothing(bytes: Run -> nat, s: State, s': State, id: string)
    requires Since(bytes, s, s', id) && AnnouncedTwice(s', id)
    ensures MayAnnounceTwice(s, id)
  {
    var later :| Feasible(s, later) && Genuinely(bytes, s, later) && After(s, later) == s';
  }

  lemma StoredIsAnnouncedOnce(s: State, id: string)
    requires Reachable(s) && id in s.rows
    ensures !MayAnnounceTwice(s, id)
  {
    ReachableIsAccounted(s);
    forall later | Feasible(s, later) && Undisturbed(s, later, id) ensures !AnnouncedTwice(After(s, later), id) {
      var steps :| Feasible(START, steps) && After(START, steps) == s;
      JoinsOn(START, steps, later);
      SparedIsOnce(After(s, later), id);
    }
  }

  /** For every reachable state and run with a registered owner, short of disk faults:
      from here on, with nothing happening to its row while it is owned, its end may be
      announced twice if and only if retention has already dropped its row. */
  lemma TwiceExactly(s: State, id: string)
    requires Reachable(s) && id in s.h.activated && id in s.registry && id !in s.h.faulted
    ensures MayAnnounceTwice(s, id) <==> id !in s.rows
  {
    if id in s.rows {
      StoredIsAnnouncedOnce(s, id);
    } else {
      var s' := MissingRowAnnouncesTwice(_ => 0, s, id);
      OnwardDisturbsNothing(_ => 0, s, s', id);
    }
  }
}
