/** Every end of a run is announced: whoever makes its row terminal, or takes its owner
    after a store error, goes on to say so. */
module DelegationAnnouncing {
  import opened DelegationRuns
  import opened DelegationStore
  import opened DelegationRegistry
  import opened DelegationProtocol
  import opened DelegationInvariant
  import opened DelegationTheorems
  import opened DelegationGuarantees

  /** The thread still has to announce this run's completion, or its storage error. */
  predicate Owes(s: State, t: nat, id: string, storage: bool) {
    t < |s.threads| && s.threads[t].Op? && s.threads[t].id == id &&
    if storage then s.threads[t].pc.EmitStorage?
    else (s.threads[t].pc.Release? || s.threads[t].pc.Emit?) && s.threads[t].pc.changed
  }

  ghost predicate Told(s: State) {
    (forall id :: id in s.h.winner ==> Announced(s, id, false) || Owes(s, s.h.winner[id], id, false)) &&
    (forall id :: id in s.h.taken ==> Announced(s, id, true) || Owes(s, s.h.taken[id], id, true))
  }

  /** Thread `t` moved; it paid what it owed, or owes it still, and owes what it newly
      took on. */
  ghost predicate Honest(s: State, s': State, t: nat) {
    s.events <= s'.events && |s.threads| <= |s'.threads| &&
    (forall u :: 0 <= u < |s.threads| && u != t ==> s'.threads[u] == s.threads[u]) &&
    (forall id, storage :: Owes(s, t, id, storage) ==> Owes(s', t, id, storage) || Announced(s', id, storage)) &&
    (forall id :: id in s'.h.winner ==> (id in s.h.winner && s'.h.winner[id] == s.h.winner[id]) ||
                                        (s'.h.winner[id] == t && Owes(s', t, id, false))) &&
    (forall id :: id in s'.h.taken ==> (id in s.h.taken && s'.h.taken[id] == s.h.taken[id]) ||
                                       (s'.h.taken[id] == t && Owes(s', t, id, true)))
  }

  lemma HonestKeepsOne(s: State, s': State, t: nat, u: nat, id: string, storage: bool)
    requires Honest(s, s', t) && (Announced(s, id, storage) || Owes(s, u, id, storage))
    ensures Announced(s', id, storage) || Owes(s', u, id, storage)
  {
  }

  lemma HonestKeeps(s: State, s': State, t: nat)
    requires Told(s) && Honest(s, s', t)
    ensures Told(s')
  {
    forall id | id in s'.h.winner ensures Announced(s', id, false) || Owes(s', s'.h.winner[id], id, false) {
      if id in s.h.winner { HonestKeepsOne(s, s', t, s.h.winner[id], id, false); }
    }
    forall id | id in s'.h.taken ensures Announced(s', id, true) || Owes(s', s'.h.taken[id], id, true) {
      if id in s.h.taken { HonestKeepsOne(s, s', t, s.h.taken[id], id, true); }
    }
  }

  /** The thread owes nothing at this point. */
  predicate Free(s: State, t: nat) {
    t < |s.threads| ==>
      s.threads[t].Op? ==>
        !s.threads[t].pc.EmitStorage? && !((s.threads[t].pc.Release? || s.threads[t].pc.Emit?) &&
          s.threads[t].pc.changed)
  }

  /** A step that neither completes nor takes anything. */
  ghost predicate Silent(s: State, s': State, t: nat) {
    s'.events == s.events && s'.h.winner == s.h.winner && s'.h.taken == s.h.taken &&
    |s.threads| <= |s'.threads| && forall u :: 0 <= u < |s.threads| && u != t ==> s'.threads[u] == s.threads[u]
  }

  lemma FreeIsHonest(s: State, s': State, t: nat)
    requires Free(s, t) && Silent(s, s', t)
    ensures Honest(s, s', t)
  {
  }

  lemma FinishIsHonest(s: State, t: nat, c: Choice)
    requires t < |s.threads| && s.threads[t].Op? && s.threads[t].pc.Finish?
    ensures Honest(s, FinishStep(s, t, c), t)
  {
  }

  lemma TakeIsHonest(s: State, t: nat)
    requires t < |s.threads| && s.threads[t].Op? && s.threads[t].pc.Take?
    ensures Honest(s, TakeStep(s, t), t)
  {
  }

  lemma ReleaseIsHonest(s: State, t: nat)
    requires t < |s.threads| && s.threads[t].Op? && s.threads[t].pc.Release?
    requires s.threads[t].kind.Watcher? ==> !s.threads[t].pc.changed
    ensures Honest(s, ReleaseStep(s, t), t)
  {
  }

  lemma EmitIsHonest(s: State, t: nat)
    requires t < |s.threads| && s.threads[t].Op? && s.threads[t].pc.Emit?
    ensures Honest(s, EmitStep(s, t), t)
  {
    var s', th := EmitStep(s, t), s.threads[t];
    if th.pc.changed { assert s'.events[|s.events|] == Event(th.id, t, false); }
  }

  lemma EmitStorageIsHonest(s: State, t: nat)
    requires t < |s.threads| && s.threads[t].Op? && s.threads[t].pc.EmitStorage?
    ensures Honest(s, EmitStorageStep(s, t), t)
  {
    var s', th := EmitStorageStep(s, t), s.threads[t];
    assert s'.events[|s.events|] == Event(th.id, t, true);
  }

  lemma LockIsSilent(s: State, t: nat, c: Choice)
    requires Can(s, Move(t, c)) && IsStart(s.threads[t]) && s.threads[t].pc in {LockFirst, LockSecond}
    ensures Silent(s, OpStep(s, t, c), t)
  {
  }

  lemma CreateIsSilent(s: State, t: nat, c: Choice)
    requires t < |s.threads| && IsStart(s.threads[t])
    ensures Silent(s, CreateStep(s, t, c), t)
  {
  }

  lemma ClaimIsSilent(s: State, t: nat, ok: bool)
    requires t < |s.threads| && IsStart(s.threads[t])
    ensures Silent(s, ClaimStep(s, t, ok), t)
  {
  }

  lemma PrepareIsSilent(s: State, t: nat, c: Choice)
    requires Can(s, Move(t, c)) && IsStart(s.threads[t]) && s.threads[t].pc in {Create, Claim}
    ensures Silent(s, OpStep(s, t, c), t)
  {
    if s.threads[t].pc.Create? { CreateIsSilent(s, t, c); }
    else { ClaimIsSilent(s, t, MayPublish(s, s.threads[t].kind.req, s.threads[t].run)); }
  }

  lemma PublishIsSilent(s: State, t: nat, c: Choice)
    requires Can(s, Move(t, c)) && IsStart(s.threads[t]) && s.threads[t].pc in {Append, Activate, Withdraw, Spawn}
    ensures Silent(s, OpStep(s, t, c), t)
  {
  }

  lemma WatchIsSilent(s: State, t: nat, c: Choice)
    requires Can(s, Move(t, c)) && s.threads[t].Op? && s.threads[t].pc in {Poll, Load}
    ensures Silent(s, OpStep(s, t, c), t)
  {
  }

  lemma TailIsSilent(s: State, t: nat, c: Choice)
    requires t < |s.threads| && s.threads[t].Op?
    ensures Silent(s, TailStep(s, t, c), t)
  {
  }

  lemma LookupIsSilent(s: State, t: nat)
    requires t < |s.threads| && s.threads[t].Op? && s.threads[t].kind.Canceller?
    ensures Silent(s, LookupStep(s, t), t)
  {
  }

  lemma ReadIsSilent(s: State, t: nat, c: Choice)
    requires Can(s, Move(t, c)) && s.threads[t].Op? && s.threads[t].pc in {Tail, Reload, Lookup}
    ensures Silent(s, OpStep(s, t, c), t)
  {
    if s.threads[t].pc.Tail? { TailIsSilent(s, t, c); }
    else if s.threads[t].pc.Lookup? { LookupIsSilent(s, t); }
  }

  /** The steps of an operation up to its finish. */
  lemma EarlyIsHonest(s: State, t: nat, c: Choice)
    requires Can(s, Move(t, c)) && s.threads[t].Op?
    requires !(s.threads[t].pc.Finish? || s.threads[t].pc.Take? || s.threads[t].pc.Release? || s.threads[t].pc.Emit? ||
               s.threads[t].pc.EmitStorage?)
    ensures Honest(s, OpStep(s, t, c), t)
  {
    if s.threads[t].pc in {LockFirst, LockSecond} { LockIsSilent(s, t, c); }
    else if s.threads[t].pc in {Create, Claim} { PrepareIsSilent(s, t, c); }
    else if BeforeRun(s.threads[t].pc) { PublishIsSilent(s, t, c); }
    else if s.threads[t].pc in {Poll, Load} { WatchIsSilent(s, t, c); }
    else { ReadIsSilent(s, t, c); }
    FreeIsHonest(s, OpStep(s, t, c), t);
  }

  lemma OpIsHonest(s: State, t: nat, c: Choice)
    requires Inv(s) && Can(s, Move(t, c)) && s.threads[t].Op?
    ensures Honest(s, Next(s, Move(t, c)), t)
  {
    assert Next(s, Move(t, c)) == OpStep(s, t, c);
    assert ThreadOk(s, t);
    if s.threads[t].pc.Finish? { FinishIsHonest(s, t, c); }
    else if s.threads[t].pc.Take? { TakeIsHonest(s, t); }
    else if s.threads[t].pc.Release? { ReleaseIsHonest(s, t); }
    else if s.threads[t].pc.Emit? { EmitIsHonest(s, t); }
    else if s.threads[t].pc.EmitStorage? { EmitStorageIsHonest(s, t); }
    else { EarlyIsHonest(s, t, c); }
  }

  /** The sweep is about to start a cancellation. */
  predicate Calling(th: Thread) { th.Sweep? && th.spc.SNext? && th.spc.k < |th.todo| }

  lemma SweepCallIsSilent(s: State, t: nat, c: Choice)
    requires t < |s.threads| && Calling(s.threads[t])
    ensures Silent(s, SweepStep(s, t, c), t)
  {
  }

  lemma SweepEndIsSilent(s: State, t: nat, c: Choice)
    requires t < |s.threads| && s.threads[t].Sweep? && s.threads[t].spc.SNext? && !Calling(s.threads[t])
    ensures Silent(s, SweepStep(s, t, c), t)
  {
  }

  lemma SweepOwnIsSilent(s: State, t: nat, c: Choice)
    requires t < |s.threads| && s.threads[t].Sweep? && !s.threads[t].spc.SNext?
    ensures Silent(s, SweepStep(s, t, c), t)
  {
  }

  lemma SweepIsHonest(s: State, t: nat, c: Choice)
    requires t < |s.threads| && s.threads[t].Sweep?
    ensures Honest(s, SweepStep(s, t, c), t)
  {
    if Calling(s.threads[t]) { SweepCallIsSilent(s, t, c); }
    else if s.threads[t].spc.SNext? { SweepEndIsSilent(s, t, c); }
    else { SweepOwnIsSilent(s, t, c); }
    FreeIsHonest(s, SweepStep(s, t, c), t);
  }

  lemma ReserveIsSilent(s: State, t: nat, c: Choice)
    requires t < |s.threads| && s.threads[t].Batch? && |c.ids| == |s.threads[t].targets|
    ensures Silent(s, ReserveStep(s, t, c), t)
  {
  }

  /** The batch starts a member, or its cancellation. */
  predicate Forking(th: Thread) { th.Batch? && (th.bpc.BStart? || th.bpc.BUndo?) }

  lemma ForkIsSilent(s: State, t: nat, c: Choice)
    requires t < |s.threads| && s.threads[t].Batch? && BatchEnabled(s, s.threads[t].targets, s.threads[t].bpc, c)
    requires Forking(s.threads[t])
    ensures Silent(s, BatchStep(s, t, c), t)
  {
  }

  lemma BatchIsSilent(s: State, t: nat, c: Choice)
    requires t < |s.threads| && s.threads[t].Batch? && BatchEnabled(s, s.threads[t].targets, s.threads[t].bpc, c)
    requires !s.threads[t].bpc.BReserve? && !Forking(s.threads[t])
    ensures Silent(s, BatchStep(s, t, c), t)
  {
  }

  lemma BatchIsHonest(s: State, t: nat, c: Choice)
    requires Can(s, Move(t, c)) && s.threads[t].Batch?
    ensures Honest(s, BatchStep(s, t, c), t)
  {
    if s.threads[t].bpc.BReserve? { ReserveIsSilent(s, t, c); }
    else if Forking(s.threads[t]) { ForkIsSilent(s, t, c); }
    else { BatchIsSilent(s, t, c); }
    FreeIsHonest(s, BatchStep(s, t, c), t);
  }

  lemma CallIsHonest(s: State, step: Step)
    requires Can(s, step) && !step.Move?
    ensures Honest(s, Next(s, step), |s.threads|)
  {
  }

  lemma MoveIsHonest(s: State, t: nat, c: Choice)
    requires Inv(s) && Can(s, Move(t, c))
    ensures Honest(s, Next(s, Move(t, c)), t)
  {
    match s.threads[t]
    case Op(_, _, _, _) => OpIsHonest(s, t, c);
    case Sweep(_, _, _, _, _, _) => SweepIsHonest(s, t, c);
    case Batch(_, _, _, _, _, _) => BatchIsHonest(s, t, c);
  }

  lemma StepStaysTold(s: State, step: Step)
    requires Inv(s) && Told(s) && Can(s, step)
    ensures Told(Next(s, step))
  {
    if step.Move? {
      MoveIsHonest(s, step.t, step.c);
      HonestKeeps(s, Next(s, step), step.t);
    } else {
      CallIsHonest(s, step);
      HonestKeeps(s, Next(s, step), |s.threads|);
    }
  }

  lemma {:induction false} RunStaysTold(s: State, steps: seq<Step>)
    requires Inv(s) && Told(s) && Feasible(s, steps)
    ensures Told(After(s, steps))
    decreases |steps|
  {
    if steps != [] {
      StepKeeps(s, steps[0]);
      StepStaysTold(s, steps[0]);
      RunStaysTold(Next(s, steps[0]), steps[1..]);
    }
  }

  lemma ReachableIsTold(s: State)
    requires Reachable(s)
    ensures Told(s) && Inv(s)
  {
    var steps :| Feasible(START, steps) && After(START, steps) == s;
    StartIsOk();
    RunStaysTold(START, steps);
    ReachableIsOk(s);
  }

  /** Nobody is about to announce anything about the run. */
  predicate Quiescent(s: State, id: string) {
    forall t, storage :: 0 <= t < |s.threads| ==> !Owes(s, t, id, storage)
  }

  /** Once nobody is about to speak, a run has been announced as complete exactly if
      somebody made its row terminal, and as a storage error exactly if somebody took
      its owner. */
  lemma AnnouncedExactly(s: State, id: string)
    requires Reachable(s) && Quiescent(s, id)
    ensures Announced(s, id, false) <==> id in s.h.winner
    ensures Announced(s, id, true) <==> id in s.h.taken
  {
    ReachableIsTold(s);
    if id in s.h.winner { assert !Owes(s, s.h.winner[id], id, false); }
    if id in s.h.taken { assert !Owes(s, s.h.taken[id], id, true); }
  }

  /** A monitor that ends leaves its run terminal or gone, unless the disk failed on it
      or the studio is shutting down. */
  lemma MonitorEndsSettled(s: State, t: nat)
    requires Reachable(s) && t < |s.threads| && s.threads[t].Op? && s.threads[t].kind.Watcher? &&
             s.threads[t].pc.Release?
    ensures Settled(s, s.threads[t].id) || s.shutdown
  {
    ReachableIsOk(s);
    assert ThreadOk(s, t);
  }
}
