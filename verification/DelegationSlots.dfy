/** Which reservations may name a deleted chat: exactly the slots that a batch asked for
    from that chat drew after the deletion had listed the runs to end, until that batch
    is over. */
module DelegationSlots {
  import opened DelegationRuns
  import opened DelegationStore
  import opened DelegationRegistry
  import opened DelegationProtocol
  import opened DelegationInvariant
  import opened DelegationTheorems
  import opened DelegationGuarantees
  import opened DelegationAnnouncing
  import opened Wrappers

  predicate HasMember(th: Thread, id: string) {
    th.Batch? && exists j :: 0 <= j < |th.reqs| && th.reqs[j].id == id
  }

  /** The entry is a slot, as its batch made it, and the batch is not over. */
  ghost predicate SlotOk(s: State, id: string) {
    id in s.registry && id in s.h.drawnBy && s.h.drawnBy[id] < |s.threads| &&
    var th := s.threads[s.h.drawnBy[id]];
    HasMember(th, id) && !th.bpc.BDone? &&
      s.registry[id] == Slot(th.from, th.fromSession, th.batch, s.registry[id].to)
  }

  /** A cancellation of an existing run that has looked for its entry leaves no slot. */
  ghost predicate CancelOk(s: State, th: Thread) {
    th.Op? && th.kind.Canceller? && th.kind.drawn ==>
      th.id in s.h.drawnBy && (th.pc.Lookup? || NotReserved(s, th.id))
  }

  /** Every slot of the chat that was there at the sweep's snapshot is in `rest`. */
  ghost predicate SlotsIn(s: State, th: Thread, rest: seq<string>)
    requires th.Sweep?
  {
    forall id :: id in s.registry && s.registry[id].reserved && id in th.before &&
                 Touches(s.registry[id], th.project, th.session) ==>
      id in rest
  }

  ghost predicate SweptOk(s: State, th: Thread) {
    th.Sweep? ==>
      th.before <= s.h.drawnBy.Keys && (forall i :: 0 <= i < |th.todo| ==> th.todo[i] in s.h.drawnBy) &&
      match th.spc
      case SLock | SSnapshot => true
      case SNext(k) => k <= |th.todo| && SlotsIn(s, th, th.todo[k..])
      case SWait(k, child) =>
        k < |th.todo| && IsCanceller(s, child, th.todo[k]) && s.threads[child].kind.drawn && SlotsIn(s, th, th.todo[k..])
      case SDone(ok) => ok ==> SlotsIn(s, th, [])
  }

  ghost predicate Slotted(s: State) {
    (forall id :: id in s.registry && s.registry[id].reserved ==> SlotOk(s, id)) &&
    (forall u :: 0 <= u < |s.threads| ==> CancelOk(s, s.threads[u])) &&
    (forall u :: 0 <= u < |s.threads| ==> SweptOk(s, s.threads[u]))
  }

  // ----------------------------------------------------- what every step keeps

  /** Nobody makes a slot for an ID that was drawn before. */
  ghost predicate Steady(s: State, s': State) {
    |s.threads| <= |s'.threads| && Extends(s.h.drawnBy, s'.h.drawnBy) &&
    (forall u :: 0 <= u < |s.threads| ==> SameRole(s.threads[u], s'.threads[u])) &&
    forall id :: id in s.h.drawnBy && id in s'.registry && s'.registry[id].reserved ==>
      id in s.registry && s.registry[id] == s'.registry[id]
  }

  lemma GrowsIsSteady(s: State, s': State)
    requires Grows(s, s')
    ensures Steady(s, s')
  {
  }

  lemma CancelStays(s: State, s': State, th: Thread)
    requires Steady(s, s') && CancelOk(s, th)
    ensures CancelOk(s', th)
  {
  }

  lemma SlotsStayIn(s: State, s': State, th: Thread, rest: seq<string>)
    requires Steady(s, s') && th.Sweep? && th.before <= s.h.drawnBy.Keys && SlotsIn(s, th, rest)
    ensures SlotsIn(s', th, rest)
  {
  }

  lemma SweptStays(s: State, s': State, th: Thread)
    requires Steady(s, s') && SweptOk(s, th)
    ensures SweptOk(s', th)
  {
    if th.Sweep? {
      match th.spc
      case SLock | SSnapshot =>
      case SNext(k) => SlotsStayIn(s, s', th, th.todo[k..]);
      case SWait(k, child) => SlotsStayIn(s, s', th, th.todo[k..]);
      case SDone(ok) => if ok { SlotsStayIn(s, s', th, []); }
    }
  }

  /** Of the threads there were, only thread `t` moved. */
  ghost predicate OthersStay(s: State, s': State, t: nat) {
    |s.threads| <= |s'.threads| && forall u :: 0 <= u < |s.threads| && u != t ==> s'.threads[u] == s.threads[u]
  }

  lemma HonestSpares(s: State, s': State, t: nat)
    requires Honest(s, s', t)
    ensures OthersStay(s, s', t)
  {
  }

  /** Thread `t` and those it started are as they should be. */
  ghost predicate NewOk(s: State, s': State, t: nat) {
    forall u :: 0 <= u < |s'.threads| && (u == t || u >= |s.threads|) ==>
      CancelOk(s', s'.threads[u]) && SweptOk(s', s'.threads[u])
  }

  lemma OthersKeep(s: State, s': State, t: nat)
    requires Slotted(s) && Steady(s, s') && OthersStay(s, s', t) && NewOk(s, s', t)
    requires forall id :: id in s'.registry && s'.registry[id].reserved ==> SlotOk(s', id)
    ensures Slotted(s')
  {
    forall u | 0 <= u < |s'.threads| ensures CancelOk(s', s'.threads[u]) && SweptOk(s', s'.threads[u]) {
      if u < |s.threads| && u != t {
        CancelStays(s, s', s.threads[u]);
        SweptStays(s, s', s.threads[u]);
      }
    }
  }

  /** A batch that goes on keeps its members. */
  ghost predicate BatchStays(s: State, s': State, t: nat) {
    t < |s.threads| <= |s'.threads| && s.threads[t].Batch? ==>
      s'.threads[t].Batch? && s'.threads[t].from == s.threads[t].from && s'.threads[t].batch == s.threads[t].batch &&
      s'.threads[t].fromSession == s.threads[t].fromSession &&
      (s.threads[t].bpc.BReserve? || s'.threads[t].reqs == s.threads[t].reqs) &&
      (s.threads[t].bpc.BReserve? ==> s.threads[t].reqs == []) &&
      (s'.threads[t].bpc.BDone? ==> forall j :: 0 <= j < |s.threads[t].reqs| ==> NotReserved(s, s.threads[t].reqs[j].id))
  }

  lemma SlotStays(s: State, s': State, t: nat, id: string)
    requires Steady(s, s') && OthersStay(s, s', t) && BatchStays(s, s', t)
    requires id in s.registry && s.registry[id].reserved && SlotOk(s, id)
    requires id in s'.registry && s'.registry[id].reserved
    ensures SlotOk(s', id)
  {
    var th := s.threads[s.h.drawnBy[id]];
    var j :| 0 <= j < |th.reqs| && th.reqs[j].id == id;
    assert s'.threads[s.h.drawnBy[id]].reqs[j].id == id;
  }

  /** The step makes no slot. */
  ghost predicate NoNewSlot(s: State, s': State) {
    forall id :: id in s'.registry && s'.registry[id].reserved ==> id in s.registry && s.registry[id].reserved
  }

  lemma NoNewSlotKeeps(s: State, s': State, t: nat)
    requires Slotted(s) && Steady(s, s') && OthersStay(s, s', t) && NewOk(s, s', t)
    requires NoNewSlot(s, s') && BatchStays(s, s', t)
    ensures Slotted(s')
  {
    forall id | id in s'.registry && s'.registry[id].reserved ensures SlotOk(s', id) { SlotStays(s, s', t, id); }
    OthersKeep(s, s', t);
  }

  // ------------------------------------------------------------ an operation

  ghost predicate OpFrame(s: State, s': State, t: nat) {
    NoNewSlot(s, s') && t < |s.threads| <= |s'.threads| && s.threads[t].Op? && s'.threads[t].Op? &&
    (forall u :: |s.threads| <= u < |s'.threads| ==> s'.threads[u].Op? && s'.threads[u].kind.Watcher?) &&
    (s'.threads[t].kind.Canceller? ==>
       !s'.threads[t].pc.Lookup? && (s.threads[t].pc.Lookup? ==> NotReserved(s', s.threads[t].id)))
  }

  lemma PreparingFrame(s: State, t: nat, c: Choice)
    requires Can(s, Move(t, c)) && IsStart(s.threads[t]) && s.threads[t].pc in {LockFirst, LockSecond, Create, Claim}
    ensures OpFrame(s, OpStep(s, t, c), t)
  {
  }

  lemma PublishingFrame(s: State, t: nat, c: Choice)
    requires Can(s, Move(t, c)) && IsStart(s.threads[t]) && s.threads[t].pc in {Append, Activate, Withdraw, Spawn}
    ensures OpFrame(s, OpStep(s, t, c), t)
  {
  }

  lemma WatchingFrame(s: State, t: nat, c: Choice)
    requires Can(s, Move(t, c)) && s.threads[t].Op? && s.threads[t].kind.Watcher? && s.threads[t].pc in {Poll, Load}
    ensures OpFrame(s, OpStep(s, t, c), t)
  {
  }

  lemma ReadingFrame(s: State, t: nat, c: Choice)
    requires Can(s, Move(t, c)) && s.threads[t].Op? && s.threads[t].kind.Watcher? && s.threads[t].pc in {Tail, Reload}
    ensures OpFrame(s, OpStep(s, t, c), t)
  {
  }

  lemma LookupFrame(s: State, t: nat, c: Choice)
    requires Can(s, Move(t, c)) && s.threads[t].Op? && s.threads[t].pc.Lookup?
    ensures OpFrame(s, OpStep(s, t, c), t)
  {
  }

  lemma FinishFrame(s: State, t: nat, c: Choice)
    requires t < |s.threads| && s.threads[t].Op? && s.threads[t].pc.Finish?
    ensures OpFrame(s, FinishStep(s, t, c), t)
  {
  }

  lemma TakeFrame(s: State, t: nat)
    requires t < |s.threads| && s.threads[t].Op? && s.threads[t].pc.Take?
    ensures OpFrame(s, TakeStep(s, t), t)
  {
  }

  lemma TellingFrame(s: State, t: nat, c: Choice)
    requires Can(s, Move(t, c)) && s.threads[t].Op?
    requires s.threads[t].pc.Release? || s.threads[t].pc.Emit? || s.threads[t].pc.EmitStorage?
    ensures OpFrame(s, OpStep(s, t, c), t)
  {
  }

  lemma OpHasFrame(s: State, t: nat, c: Choice)
    requires Inv(s) && Can(s, Move(t, c)) && s.threads[t].Op?
    ensures OpFrame(s, OpStep(s, t, c), t)
  {
    assert ThreadOk(s, t);
    if s.threads[t].pc in {LockFirst, LockSecond, Create, Claim} { PreparingFrame(s, t, c); }
    else if BeforeRun(s.threads[t].pc) { PublishingFrame(s, t, c); }
    else if s.threads[t].pc in {Poll, Load} { WatchingFrame(s, t, c); }
    else if s.threads[t].pc in {Tail, Reload} { ReadingFrame(s, t, c); }
    else if s.threads[t].pc.Lookup? { LookupFrame(s, t, c); }
    else if s.threads[t].pc.Finish? { FinishFrame(s, t, c); }
    else if s.threads[t].pc.Take? { TakeFrame(s, t); }
    else { TellingFrame(s, t, c); }
  }

  lemma OpIsNewOk(s: State, s': State, t: nat)
    requires Slotted(s) && Steady(s, s') && OpFrame(s, s', t)
    ensures NewOk(s, s', t)
  {
    assert CancelOk(s, s.threads[t]);
  }

  lemma OpSlots(s: State, t: nat, c: Choice)
    requires Slotted(s) && Inv(s) && Can(s, Move(t, c)) && s.threads[t].Op? && Steady(s, OpStep(s, t, c))
    ensures Slotted(OpStep(s, t, c))
  {
    OpHasFrame(s, t, c);
    OpIsNewOk(s, OpStep(s, t, c), t);
    OpIsHonest(s, t, c);
    HonestSpares(s, OpStep(s, t, c), t);
    NoNewSlotKeeps(s, OpStep(s, t, c), t);
  }

  // ------------------------------------------------------------------- a sweep

  lemma SnapshotSlots(s: State, t: nat, c: Choice)
    requires RegistryOk(s) && t < |s.threads| && s.threads[t].Sweep? && s.threads[t].spc.SSnapshot?
    requires SweptOk(s, s.threads[t])
    requires (set id | id in c.ids) == Touching(s, s.threads[t].project, s.threads[t].session)
    ensures SweptOk(SweepStep(s, t, c), SweepStep(s, t, c).threads[t])
    ensures |SweepStep(s, t, c).threads| == |s.threads|
  {
    var th := s.threads[t];
    forall id | id in Touching(s, th.project, th.session) ensures id in c.ids && id in s.h.drawnBy {
      assert id in (set x | x in c.ids);
    }
    forall i | 0 <= i < |c.ids| ensures c.ids[i] in s.h.drawnBy {
      assert c.ids[i] in (set x | x in c.ids);
    }
    assert c.ids[0..] == c.ids;
  }

  lemma SweepCallSlots(s: State, t: nat, c: Choice)
    requires t < |s.threads| && s.threads[t].Sweep? && s.threads[t].spc.SNext? && SweptOk(s, s.threads[t])
    requires s.threads[t].spc.k < |s.threads[t].todo|
    ensures var s' := SweepStep(s, t, c);
            SweptOk(s', s'.threads[t]) && NewOk(s, s', t)
  {
    var th, s' := s.threads[t], SweepStep(s, t, c);
    assert s'.threads[|s.threads|] == Cancelling(s, th.todo[th.spc.k]);
  }

  lemma SweepEndSlots(s: State, t: nat, c: Choice)
    requires t < |s.threads| && s.threads[t].Sweep? && s.threads[t].spc.SNext? && SweptOk(s, s.threads[t])
    requires s.threads[t].spc.k >= |s.threads[t].todo|
    ensures var s' := SweepStep(s, t, c);
            SweptOk(s', s'.threads[t]) && NewOk(s, s', t)
  {
    var th, s' := s.threads[t], SweepStep(s, t, c);
    assert th.todo[th.spc.k..] == [];
    SweepEndMoves(s, t, c);
  }

  lemma SweepEndMoves(s: State, t: nat, c: Choice)
    requires t < |s.threads| && s.threads[t].Sweep? && s.threads[t].spc.SNext?
    requires s.threads[t].spc.k >= |s.threads[t].todo|
    ensures var s' := SweepStep(s, t, c);
            |s'.threads| == |s.threads| && s'.threads[t] == s.threads[t].(spc := SDone(s'.threads[t].spc.ok)) &&
            s'.registry == s.registry && s'.h.drawnBy == s.h.drawnBy
  {
  }

  lemma SweepWaitSlots(s: State, t: nat, c: Choice)
    requires t < |s.threads| && s.threads[t].Sweep? && s.threads[t].spc.SWait? && SweptOk(s, s.threads[t])
    requires s.threads[s.threads[t].spc.child].pc.Done? && CancelOk(s, s.threads[s.threads[t].spc.child])
    ensures var s' := SweepStep(s, t, c);
            |s'.threads| == |s.threads| && SweptOk(s', s'.threads[t])
  {
    var th := s.threads[t];
    var k := th.spc.k;
    assert th.todo[k..] == [th.todo[k]] + th.todo[k + 1..];
  }

  lemma SweepIsNewOk(s: State, t: nat, c: Choice)
    requires Slotted(s) && RegistryOk(s) && Can(s, Move(t, c)) && s.threads[t].Sweep?
    ensures NewOk(s, SweepStep(s, t, c), t)
  {
    assert SweptOk(s, s.threads[t]);
    match s.threads[t].spc
    case SLock =>
    case SSnapshot => SnapshotSlots(s, t, c);
    case SNext(k) => if k < |s.threads[t].todo| { SweepCallSlots(s, t, c); } else { SweepEndSlots(s, t, c); }
    case SWait(_, child) => assert CancelOk(s, s.threads[child]); SweepWaitSlots(s, t, c);
  }

  lemma SweepFrame(s: State, t: nat, c: Choice)
    requires t < |s.threads| && s.threads[t].Sweep?
    ensures SweepStep(s, t, c).registry == s.registry && OthersStay(s, SweepStep(s, t, c), t)
  {
    SweepIsHonest(s, t, c);
    HonestSpares(s, SweepStep(s, t, c), t);
  }

  lemma SweepSlots(s: State, t: nat, c: Choice)
    requires Slotted(s) && RegistryOk(s) && Can(s, Move(t, c)) && s.threads[t].Sweep? && Steady(s, SweepStep(s, t, c))
    ensures Slotted(SweepStep(s, t, c))
  {
    SweepIsNewOk(s, t, c);
    SweepFrame(s, t, c);
    NoNewSlotKeeps(s, SweepStep(s, t, c), t);
  }

  // ------------------------------------------------------------------- a batch

  lemma BatchFrame(s: State, t: nat, c: Choice)
    requires Can(s, Move(t, c)) && s.threads[t].Batch? && !s.threads[t].bpc.BReserve?
    ensures OthersStay(s, BatchStep(s, t, c), t) && NoNewSlot(s, BatchStep(s, t, c))
  {
    BatchIsHonest(s, t, c);
    HonestSpares(s, BatchStep(s, t, c), t);
  }

  lemma ForkIsNewOk(s: State, t: nat, c: Choice)
    requires t < |s.threads| && s.threads[t].Batch? && BatchEnabled(s, s.threads[t].targets, s.threads[t].bpc, c)
    requires Forking(s.threads[t])
    ensures NewOk(s, BatchStep(s, t, c), t)
  {
  }

  lemma PlainIsNewOk(s: State, t: nat, c: Choice)
    requires t < |s.threads| && s.threads[t].Batch? && BatchEnabled(s, s.threads[t].targets, s.threads[t].bpc, c)
    requires !s.threads[t].bpc.BReserve? && !Forking(s.threads[t])
    ensures NewOk(s, BatchStep(s, t, c), t)
  {
  }

  /** Only its counters move, and it is over only after it has cleaned up. */
  ghost predicate BatchOnly(s: State, s': State, t: nat) {
    t < |s.threads| <= |s'.threads| && s.threads[t].Batch? && s'.threads[t].Batch? &&
    s'.threads[t] == s.threads[t].(bpc := s'.threads[t].bpc) &&
    (s'.threads[t].bpc.BDone? ==> s.threads[t].bpc.BClean? && s.threads[t].bpc.k >= |s.threads[t].reqs|)
  }

  lemma ForkIsOnly(s: State, t: nat, c: Choice)
    requires t < |s.threads| && s.threads[t].Batch? && BatchEnabled(s, s.threads[t].targets, s.threads[t].bpc, c)
    requires Forking(s.threads[t])
    ensures BatchOnly(s, BatchStep(s, t, c), t)
  {
  }

  lemma PlainIsOnly(s: State, t: nat, c: Choice)
    requires t < |s.threads| && s.threads[t].Batch? && BatchEnabled(s, s.threads[t].targets, s.threads[t].bpc, c)
    requires !s.threads[t].bpc.BReserve? && !Forking(s.threads[t])
    ensures BatchOnly(s, BatchStep(s, t, c), t)
  {
  }

  lemma BatchIsNewOk(s: State, t: nat, c: Choice)
    requires Can(s, Move(t, c)) && s.threads[t].Batch? && !s.threads[t].bpc.BReserve?
    ensures NewOk(s, BatchStep(s, t, c), t) && BatchOnly(s, BatchStep(s, t, c), t)
  {
    if Forking(s.threads[t]) {
      ForkIsNewOk(s, t, c); ForkIsOnly(s, t, c);
    } else {
      PlainIsNewOk(s, t, c); PlainIsOnly(s, t, c);
    }
  }

  lemma BatchOnlyStays(s: State, s': State, t: nat)
    requires BatchOnly(s, s', t) && !s.threads[t].bpc.BReserve? && ThreadOk(s, t)
    ensures BatchStays(s, s', t)
  {
  }

  lemma ReserveFrame(s: State, t: nat, c: Choice)
    requires t < |s.threads| && s.threads[t].Batch? && |c.ids| == |s.threads[t].targets|
    ensures OthersStay(s, ReserveStep(s, t, c), t) && NewOk(s, ReserveStep(s, t, c), t)
  {
  }

  lemma RefusedReserveSlots(s: State, t: nat, c: Choice)
    requires Slotted(s) && Can(s, Move(t, c)) && ThreadOk(s, t) && s.threads[t].Batch? && s.threads[t].bpc.BReserve?
    requires c.refuse || !MayReserve(s.registry, s.threads[t].targets)
    requires Steady(s, ReserveStep(s, t, c))
    ensures Slotted(ReserveStep(s, t, c))
  {
    ReserveFrame(s, t, c);
    NoNewSlotKeeps(s, ReserveStep(s, t, c), t);
  }

  /** The new slots. */
  lemma DrawnAreSlots(s: State, t: nat, c: Choice, i: nat)
    requires t < |s.threads| && s.threads[t].Batch? && |c.ids| == |s.threads[t].targets| && i < |c.ids|
    requires FreshIds(s.registry, c.ids) && !c.refuse && MayReserve(s.registry, s.threads[t].targets)
    ensures SlotOk(ReserveStep(s, t, c), c.ids[i])
  {
    var th := s.threads[t];
    WithSlotsAdds(s.registry, th.from, th.fromSession, th.batch, th.targets, c.ids);
    assert ReserveStep(s, t, c).threads[t].reqs[i].id == c.ids[i];
  }

  lemma DrawingSlots(s: State, t: nat, c: Choice)
    requires Slotted(s) && Can(s, Move(t, c)) && ThreadOk(s, t) && s.threads[t].Batch? && s.threads[t].bpc.BReserve?
    requires !c.refuse && MayReserve(s.registry, s.threads[t].targets)
    requires Steady(s, ReserveStep(s, t, c))
    ensures Slotted(ReserveStep(s, t, c))
  {
    var s' := ReserveStep(s, t, c);
    ReserveFrame(s, t, c);
    forall id | id in s'.registry && s'.registry[id].reserved ensures SlotOk(s', id) { SlotsAreOk(s, t, c, id); }
    OthersKeep(s, s', t);
  }

  lemma OldSlotStays(s: State, t: nat, c: Choice, id: string)
    requires t < |s.threads| && ThreadOk(s, t) && s.threads[t].Batch? && s.threads[t].bpc.BReserve?
    requires |c.ids| == |s.threads[t].targets|
    requires Steady(s, ReserveStep(s, t, c)) && OthersStay(s, ReserveStep(s, t, c), t)
    requires id in s.registry && s.registry[id].reserved && SlotOk(s, id)
    requires id in ReserveStep(s, t, c).registry && ReserveStep(s, t, c).registry[id].reserved
    ensures SlotOk(ReserveStep(s, t, c), id)
  {
    SlotStays(s, ReserveStep(s, t, c), t, id);
  }

  lemma SlotsAreOk(s: State, t: nat, c: Choice, id: string)
    requires Slotted(s) && Can(s, Move(t, c)) && ThreadOk(s, t) && s.threads[t].Batch? && s.threads[t].bpc.BReserve?
    requires !c.refuse && MayReserve(s.registry, s.threads[t].targets)
    requires Steady(s, ReserveStep(s, t, c)) && OthersStay(s, ReserveStep(s, t, c), t)
    requires id in ReserveStep(s, t, c).registry && ReserveStep(s, t, c).registry[id].reserved
    ensures SlotOk(ReserveStep(s, t, c), id)
  {
    if id in c.ids {
      var i :| 0 <= i < |c.ids| && c.ids[i] == id;
      DrawnAreSlots(s, t, c, i);
    } else {
      NotNewIsOld(s, t, c, id);
      OldSlotStays(s, t, c, id);
    }
  }

  lemma NotNewIsOld(s: State, t: nat, c: Choice, id: string)
    requires t < |s.threads| && s.threads[t].Batch? && |c.ids| == |s.threads[t].targets| && FreshIds(s.registry, c.ids)
    requires id in ReserveStep(s, t, c).registry && id !in c.ids
    ensures id in s.registry && ReserveStep(s, t, c).registry[id] == s.registry[id]
  {
    var th := s.threads[t];
    WithSlotsAdds(s.registry, th.from, th.fromSession, th.batch, th.targets, c.ids);
  }

  lemma BatchSlots(s: State, t: nat, c: Choice)
    requires Slotted(s) && Can(s, Move(t, c)) && ThreadOk(s, t) && s.threads[t].Batch? && Steady(s, BatchStep(s, t, c))
    ensures Slotted(BatchStep(s, t, c))
  {
    if !s.threads[t].bpc.BReserve? {
      BatchFrame(s, t, c);
      BatchIsNewOk(s, t, c);
      BatchOnlyStays(s, BatchStep(s, t, c), t);
      NoNewSlotKeeps(s, BatchStep(s, t, c), t);
    } else if c.refuse || !MayReserve(s.registry, s.threads[t].targets) {
      RefusedReserveSlots(s, t, c);
    } else {
      DrawingSlots(s, t, c);
    }
  }

  // ------------------------------------------------------------------ every run

  lemma CallSlots(s: State, step: Step)
    requires Slotted(s) && Can(s, step) && !step.Move? && Steady(s, Next(s, step))
    ensures Slotted(Next(s, step))
  {
    NoNewSlotKeeps(s, Next(s, step), |s.threads|);
  }

  lemma StepSlots(s: State, step: Step)
    requires Slotted(s) && Inv(s) && Can(s, step) && Steady(s, Next(s, step))
    ensures Slotted(Next(s, step))
  {
    if !step.Move? {
      CallSlots(s, step);
    } else {
      assert ThreadOk(s, step.t);
      match s.threads[step.t]
      case Op(_, _, _, _) => OpSlots(s, step.t, step.c);
      case Sweep(_, _, _, _, _, _) => SweepSlots(s, step.t, step.c);
      case Batch(_, _, _, _, _, _) => BatchSlots(s, step.t, step.c);
    }
  }

  lemma {:induction false} RunSlots(s: State, steps: seq<Step>)
    requires Slotted(s) && Inv(s) && Feasible(s, steps)
    ensures Slotted(After(s, steps))
    decreases |steps|
  {
    if steps != [] {
      StepKeeps(s, steps[0]);
      GrowsIsSteady(s, Next(s, steps[0]));
      StepSlots(s, steps[0]);
      RunSlots(Next(s, steps[0]), steps[1..]);
    }
  }

  lemma ReachableIsSlotted(s: State)
    requires Reachable(s)
    ensures Slotted(s) && Inv(s)
  {
    var steps :| Feasible(START, steps) && After(START, steps) == s;
    StartIsOk();
    RunSlots(START, steps);
    ReachableIsOk(s);
  }

  // --------------------------------------------------------------- the theorem

  /** Thread `t` has deleted the chat. */
  predicate Deleted(s: State, t: nat, project: string, session: string) {
    t < |s.threads| && s.threads[t].Sweep? && s.threads[t].what.DeleteChat? && s.threads[t].spc == SDone(true) &&
    s.threads[t].project == project && s.threads[t].session == session
  }

  /** The run ID was drawn by a batch that the chat asked for and that is not over. */
  predicate DrawnFrom(s: State, id: string, project: string, session: string) {
    id in s.h.drawnBy && s.h.drawnBy[id] < |s.threads| &&
    var th := s.threads[s.h.drawnBy[id]];
    HasMember(th, id) && !th.bpc.BDone? && th.from == project && th.fromSession == session
  }

  lemma SlotNamesItsChat(from: string, fromSession: string, batch: string, target: string, project: string,
                         session: string)
    requires fromSession == NormalizedSession(fromSession) && session != ""
    ensures Touches(Slot(from, fromSession, batch, target), project, session) <==>
            from == project && fromSession == session
  {
  }

  /** After a deletion, in every later state, an entry names the deleted chat at either
      end exactly if it is a reservation that a batch asked for from the chat drew after
      the deletion had listed the runs to end, and that batch is not over. So every
      reservation that was there at the time is gone. */
  lemma SlotsOfDeletedChat(s: State, t: nat, project: string, session: string, id: string)
    requires Reachable(s) && Deleted(s, t, project, session) && id in s.registry
    ensures Touches(s.registry[id], project, session) <==>
            s.registry[id].reserved && DrawnFrom(s, id, project, session) && id !in s.threads[t].before
  {
    ReachableIsSlotted(s);
    assert ThreadOk(s, t) && SweptOk(s, s.threads[t]);
    if s.registry[id].reserved {
      var u := s.h.drawnBy[id];
      assert SlotOk(s, id) && ThreadOk(s, u);
      SlotNamesItsChat(s.threads[u].from, s.threads[u].fromSession, s.threads[u].batch, s.registry[id].to, project,
                       session);
    }
  }

  /** Thread `t` is deleting or has deleted the chat that batch `u`, about to reserve,
      was asked for from. */
  ghost predicate ReservesLate(s: State, t: nat, u: nat, c: Choice) {
    t < |s.threads| && s.threads[t].Sweep? && s.threads[t].what.DeleteChat? &&
    (s.threads[t].spc.SNext? || s.threads[t].spc.SWait? || s.threads[t].spc == SDone(true)) &&
    Can(s, Move(u, c)) && s.threads[u].Batch? && s.threads[u].bpc.BReserve? &&
    s.threads[u].from == s.threads[t].project && s.threads[u].fromSession == s.threads[t].session &&
    !c.refuse && MayReserve(s.registry, s.threads[u].targets)
  }

  lemma DrawnNameTheirChat(s: State, u: nat, c: Choice, i: nat)
    requires Can(s, Move(u, c)) && s.threads[u].Batch? && s.threads[u].bpc.BReserve? && i < |c.ids|
    requires !c.refuse && MayReserve(s.registry, s.threads[u].targets) && s.threads[u].fromSession != ""
    requires s.threads[u].fromSession == NormalizedSession(s.threads[u].fromSession)
    ensures var s', id := ReserveStep(s, u, c), c.ids[i];
            id in s'.registry && Touches(s'.registry[id], s.threads[u].from, s.threads[u].fromSession) &&
            DrawnFrom(s', id, s.threads[u].from, s.threads[u].fromSession)
  {
    var th, s' := s.threads[u], ReserveStep(s, u, c);
    DrawnAreSlots(s, u, c, i);
    SlotNamesItsChat(th.from, th.fromSession, th.batch, s'.registry[c.ids[i]].to, th.from, th.fromSession);
  }

  /** Any batch from the chat that reserves once the deletion has made its list draws
      such slots, before the chat is gone or after. */
  lemma LateSlotsNameIt(s: State, t: nat, u: nat, c: Choice, i: nat)
    requires Reachable(s) && ReservesLate(s, t, u, c) && i < |c.ids|
    ensures var s', id := Next(s, Move(u, c)), c.ids[i];
            id in s'.registry && Touches(s'.registry[id], s.threads[t].project, s.threads[t].session) &&
            DrawnFrom(s', id, s.threads[t].project, s.threads[t].session) && id !in s'.threads[t].before
  {
    LateIsNamed(s, t, u, c);
    ReserveLeads(s, u, c);
    DrawnNameTheirChat(s, u, c, i);
    ReserveFrame(s, u, c);
  }

  lemma LateIsNamed(s: State, t: nat, u: nat, c: Choice)
    requires Reachable(s) && ReservesLate(s, t, u, c)
    ensures s.threads[u].fromSession == NormalizedSession(s.threads[u].fromSession) && s.threads[u].fromSession != ""
    ensures t != u && s.threads[t].before <= s.h.drawnBy.Keys
  {
    ReachableIsSlotted(s);
    assert ThreadOk(s, t) && ThreadOk(s, u) && SweptOk(s, s.threads[t]);
  }

  lemma ChatIsListed() returns (s: State)
    ensures Reachable(s) && s.registry == map[] && s.dmu == None && !s.shutdown && s.sessions == {("A", "a")}
    ensures s.h == START.h.(chats := {("A", "a")}) && s.meta == map["A" := 1]
    ensures s.threads == [Batch("A", "a", "g", ["B"], [], BReserve), Sweep(DeleteChat, "A", "a", [], {}, SNext(0))]
  {
    s := BatchIsWaiting();
    Goes(s, 1, PICK); s := Moved(s, 1, PICK);
    assert s.threads[1] == Sweep(DeleteChat, "A", "a", [], {}, SSnapshot);
    assert Touching(s, "A", "a") == {} && s.h.drawnBy.Keys == {};
    Goes(s, 1, PICK); s := Moved(s, 1, PICK);
  }

  lemma SlotIsDrawnMeanwhile() returns (s: State)
    ensures Reachable(s) && "r" in s.registry && s.registry["r"] == Slot("A", "a", "g", "B")
    ensures |s.threads| == 2 && s.threads[1] == Sweep(DeleteChat, "A", "a", [], {}, SNext(0))
    ensures ("A", "a") in s.sessions && s.h.faulted == {} && !s.shutdown
  {
    s := ChatIsListed();
    var draw := PICK.(ids := ["r"]);
    assert !Occupied(s.registry, "B") && FreshIds(s.registry, ["r"]);
    Goes(s, 0, draw); s := Moved(s, 0, draw);
  }

  /** A batch may reserve while the deletion is at work and the chat is still there; its
      slot outlives the chat. */
  lemma SlotMayOutliveItsChat() returns (s: State)
    ensures Reachable(s) && s.h.faulted == {} && !s.shutdown && Deleted(s, 1, "A", "a")
    ensures "r" in s.registry && s.registry["r"].reserved && Touches(s.registry["r"], "A", "a")
  {
    OneCharacterNames();
    s := SlotIsDrawnMeanwhile();
    SlotNamesItsChat("A", "a", "g", "B", "A", "a");
    Goes(s, 1, PICK); s := Moved(s, 1, PICK);
  }
}
