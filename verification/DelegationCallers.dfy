/** The steps of the delegation protocol that start operations, and those of the
    batch and of deleting, clearing or stopping a chat, keep the invariant. */
module DelegationCallers {
  import opened DelegationRuns
  import opened DelegationStore
  import opened DelegationRegistry
  import opened DelegationProtocol
  import opened DelegationInvariant
  import opened DelegationFrames
  import opened DelegationSteps
  import opened Wrappers

  // ---------------------------------------------------------------- new threads

  /** A step that starts one thread; `t` is the caller, or the new thread itself
      when the call comes from outside. */
  ghost predicate Forks(s: State, s': State, t: nat, born: Thread) {
    t <= |s.threads| && |s'.threads| == |s.threads| + 1 && s'.threads[|s.threads|] == born &&
    (forall u :: 0 <= u < |s.threads| && u != t ==> s'.threads[u] == s.threads[u]) &&
    (t < |s.threads| ==> SameRole(s.threads[t], s'.threads[t]) && KeepsLocks(s.threads[t], s'.threads[t])) &&
    !HoldsOwners(born) && (forall p :: !Holds(born, p)) &&
    (IsStart(born) ==> born.id !in s.h.launched) &&
    s' == s.(threads := s'.threads, h := s.h.(launched := s'.h.launched, drawnBy := s'.h.drawnBy)) &&
    s.h.launched <= s'.h.launched && Extends(s.h.drawnBy, s'.h.drawnBy) &&
    (forall id :: id in s'.h.launched ==> id in s'.h.drawnBy) &&
    (forall id :: id in s'.h.launched && id !in s.h.launched ==> id !in s.h.drawnBy || s.h.drawnBy[id] == t) &&
    (forall id :: id in s'.h.drawnBy ==> s'.h.drawnBy[id] < |s'.threads|) &&
    (forall id :: id in s'.h.drawnBy && id !in s.h.drawnBy ==> id !in s.registry)
  }

  ghost predicate KeepsLocks(th: Thread, th': Thread) {
    !HoldsOwners(th) && !HoldsOwners(th') && forall p :: Holds(th', p) ==> Holds(th, p)
  }

  lemma ForkThreads(s: State, s': State, t: nat, born: Thread)
    requires Forks(s, s', t, born) && LocksOk(s) && StartersApart(s)
    requires forall u :: 0 <= u < |s.threads| && IsStart(s.threads[u]) ==> s.threads[u].id in s.h.launched
    ensures LocksOk(s') && StartersApart(s') && SamePublishing(s, s')
  {
  }

  lemma ForkRest(s: State, s': State, t: nat, born: Thread)
    requires Forks(s, s', t, born) && SamePublishing(s, s') && Global(s)
    ensures Bounded(s'.registry) && RegistryOk(s') && RowsOk(s') && OwnedOk(s') && EventsOk(s') && DeletedOk(s')
  {
    forall id ensures Publishing(s, id) == Publishing(s', id) { }
    RowsFrame(s, s');
    OwnedFrame(s, s');
    EventsFrame(s, s');
    DeletedFrame(s, s');
  }

  lemma ForkHistory(s: State, s': State, t: nat, born: Thread)
    requires Forks(s, s', t, born) && SamePublishing(s, s') && HistoryOk(s)
    ensures HistoryOk(s')
  {
  }

  lemma ForkActs(s: State, s': State, t: nat, born: Thread)
    requires Forks(s, s', t, born) && RegistryOk(s)
    ensures Acts(s, s', t)
  {
  }

  /** The thread's start, if it is one, was recorded. */
  lemma StartsAreLaunched(s: State)
    requires ThreadsOk(s)
    ensures forall u :: 0 <= u < |s.threads| && IsStart(s.threads[u]) ==> s.threads[u].id in s.h.launched
  {
    forall u | 0 <= u < |s.threads| && IsStart(s.threads[u]) ensures s.threads[u].id in s.h.launched {
      assert ThreadOk(s, u);
    }
  }

  lemma ForkKeeps(s: State, s': State, t: nat, born: Thread)
    requires Inv(s) && Forks(s, s', t, born)
    ensures Global(s') && Acts(s, s', t)
  {
    StartsAreLaunched(s);
    ForkThreads(s, s', t, born);
    ForkRest(s, s', t, born);
    ForkHistory(s, s', t, born);
    ForkActs(s, s', t, born);
  }

  lemma SpawnForks(s: State, t: nat, c: Choice)
    requires AtPc(s, t, Spawn) && IsStart(s.threads[t]) && !c.refuse && LocksOk(s) && HistoryOk(s)
    ensures Forks(s, SpawnStep(s, t, c), t, Op(Watcher, s.threads[t].id, s.threads[t].run, Poll))
  {
  }

  lemma SpawnGoesOn(s: State, t: nat, c: Choice)
    requires AtPc(s, t, Spawn) && IsStart(s.threads[t]) && !c.refuse
    ensures ThreadOk(SpawnStep(s, t, c), t) && ThreadOk(SpawnStep(s, t, c), |s.threads|)
  {
  }

  // ------------------------------------------------------------------- sweeps

  ghost predicate AtSweep(s: State, t: nat) { t < |s.threads| && s.threads[t].Sweep? && ThreadOk(s, t) }

  lemma SweepLockIsQuiet(s: State, t: nat, c: Choice)
    requires AtSweep(s, t) && s.threads[t].spc.SLock? && LocksOk(s) && s.threads[t].project !in s.meta
    ensures QuietlyOk(s, SweepStep(s, t, c), t)
  {
  }

  /** Every run that a sweep has to end has a live owner in the registry. */
  lemma SnapshotLists(s: State, project: string, session: string, ids: seq<string>)
    requires RegistryOk(s) && RowsOk(s) && HistoryOk(s) && OwnedOk(s) && s.dmu.None?
    requires (set id | id in ids) == Touching(s, project, session)
    ensures Listed(s, project, session, ids)
  {
    forall id | id in s.rows && !Settled(s, id) && RowTouches(s.rows[id], project, session)
      ensures id in ids || s.shutdown
    {
      if !s.shutdown {
        OwnerIsExact(s, id);
        SameRunTouches(s.rows[id], s.h.ident[id], project, session);
        assert id in Touching(s, project, session);
      }
    }
    forall id | id in s.registry && Touches(s.registry[id], project, session) ensures id in ids {
      assert id in Touching(s, project, session);
    }
  }

  lemma SweepSnapshotIsQuiet(s: State, t: nat, c: Choice)
    requires AtSweep(s, t) && s.threads[t].spc.SSnapshot? && LocksOk(s)
    requires Listed(s, s.threads[t].project, s.threads[t].session, c.ids) && s.sessions <= s.h.chats
    ensures QuietlyOk(s, SweepStep(s, t, c), t)
  {
    OwnLock(s, t, s.threads[t].project);
    assert c.ids[0..] == c.ids;
  }

  lemma SweepCallForks(s: State, t: nat, c: Choice)
    requires AtSweep(s, t) && s.threads[t].spc.SNext? && s.threads[t].spc.k < |s.threads[t].todo| && HistoryOk(s)
    ensures var id := s.threads[t].todo[s.threads[t].spc.k];
            Forks(s, SweepStep(s, t, c), t, Cancelling(s, id))
    ensures ThreadOk(SweepStep(s, t, c), |s.threads|)
  {
  }

  /** The list shrinks by a run that is over, or that is not live at all. */
  lemma ListedShrinks(s: State, project: string, session: string, todo: seq<string>, k: nat)
    requires k < |todo| && Listed(s, project, session, todo[k..])
    requires todo[k] in s.registry && !s.registry[todo[k]].reserved ==> !Touches(s.registry[todo[k]], project, session)
    requires Settled(s, todo[k]) || !RowTouches(s.rows[todo[k]], project, session)
    ensures Listed(s, project, session, todo[k + 1..])
  {
  }

  lemma SweepCallGoesOn(s: State, t: nat, c: Choice)
    requires AtSweep(s, t) && s.threads[t].spc.SNext? && s.threads[t].spc.k < |s.threads[t].todo|
    requires HistoryOk(s) && RegistryOk(s) && RowsOk(s) && LocksOk(s) && ThreadsOk(s)
    ensures ThreadOk(SweepStep(s, t, c), t)
  {
    var th, s' := s.threads[t], SweepStep(s, t, c);
    var k := th.spc.k;
    var id := th.todo[k];
    var rest := if id in s.h.activated then th.todo[k..] else th.todo[k + 1..];
    if id !in s.h.activated { UnownedTouchesNothing(s, t, id); ListedShrinks(s, th.project, th.session, th.todo, k); }
    assert Listed(s, th.project, th.session, rest);
    assert Listed(s', th.project, th.session, rest);
  }

  /** Under the sweep's lock, a run that was never given a live owner has neither a
      live entry nor a row that touches the project. */
  lemma UnownedTouchesNothing(s: State, t: nat, id: string)
    requires HistoryOk(s) && RegistryOk(s) && RowsOk(s) && LocksOk(s) && ThreadsOk(s)
    requires t < |s.threads| && s.threads[t].Sweep? && Holds(s.threads[t], s.threads[t].project)
    requires id !in s.h.activated
    ensures id in s.registry && !s.registry[id].reserved ==>
              !Touches(s.registry[id], s.threads[t].project, s.threads[t].session)
    ensures id in s.rows ==> !RowTouches(s.rows[id], s.threads[t].project, s.threads[t].session)
  {
    var project := s.threads[t].project;
    if Publishing(s, id) {
      var u := s.dmu.value;
      var th := s.threads[u];
      assert ThreadOk(s, u);
      assert th.run.from == th.kind.req.from && th.run.to == th.kind.req.to;
      OwnLock(s, u, th.run.from);
      OwnLock(s, u, th.run.to);
      OwnLock(s, t, project);
      assert th.run.from != project && th.run.to != project;
      if id in s.rows { SameRunTouches(s.rows[id], th.run, project, s.threads[t].session); }
    }
  }

  lemma SweepEndIsQuiet(s: State, t: nat, c: Choice)
    requires AtSweep(s, t) && s.threads[t].spc.SNext? && s.threads[t].spc.k >= |s.threads[t].todo| && LocksOk(s)
    requires !s.threads[t].what.DeleteChat? || c.refuse
    ensures QuietlyOk(s, SweepStep(s, t, c), t)
  {
  }

  lemma SweepWaitIsQuiet(s: State, t: nat, c: Choice)
    requires AtSweep(s, t) && s.threads[t].spc.SWait? && LocksOk(s)
    requires s.threads[s.threads[t].spc.child].Op? && s.threads[s.threads[t].spc.child].pc.Done?
    requires ThreadOk(s, s.threads[t].spc.child)
    ensures QuietlyOk(s, SweepStep(s, t, c), t)
  {
    SweepWaitGoesOn(s, t, c);
    PlainIsQuiet(s, SweepStep(s, t, c), t, s.threads[t].(spc := SNext(s.threads[t].spc.k + 1)));
  }

  lemma SweepWaitGoesOn(s: State, t: nat, c: Choice)
    requires AtSweep(s, t) && s.threads[t].spc.SWait?
    requires s.threads[s.threads[t].spc.child].Op? && s.threads[s.threads[t].spc.child].pc.Done?
    requires ThreadOk(s, s.threads[t].spc.child)
    ensures ThreadOk(SweepStep(s, t, c), t)
  {
  }

  /** Deleting the chat itself: no run touches it any more. */
  ghost predicate Deleting(s: State, t: nat, c: Choice) {
    AtSweep(s, t) && s.threads[t].what.DeleteChat? && !c.refuse &&
    s.threads[t].spc.SNext? && s.threads[t].spc.k >= |s.threads[t].todo|
  }

  lemma DeleteUntouched(s: State, t: nat, c: Choice)
    requires Deleting(s, t, c) && DeletedOk(s)
    ensures DeletedOk(SweepStep(s, t, c))
  {
  }

  lemma DeleteHistory(s: State, t: nat, c: Choice)
    requires Deleting(s, t, c) && HistoryOk(s) && SamePublishing(s, SweepStep(s, t, c))
    ensures HistoryOk(SweepStep(s, t, c))
  {
  }

  lemma DeleteRest(s: State, t: nat, c: Choice)
    requires Deleting(s, t, c) && Global(s)
    ensures SamePublishing(s, SweepStep(s, t, c)) && Bounded(SweepStep(s, t, c).registry)
    ensures RegistryOk(SweepStep(s, t, c)) && RowsOk(SweepStep(s, t, c)) && OwnedOk(SweepStep(s, t, c))
    ensures EventsOk(SweepStep(s, t, c)) && LocksOk(SweepStep(s, t, c)) && StartersApart(SweepStep(s, t, c))
  {
    var th, s' := s.threads[t], SweepStep(s, t, c);
    OwnLock(s, t, th.project);
    RegistryFrame(s, s');
    RowsFrame(s, s');
    OwnedFrame(s, s');
    EventsFrame(s, s');
    LocksFrame(s, s', t);
    ApartFrame(s, s', t);
  }

  lemma DeleteActs(s: State, t: nat, c: Choice)
    requires Deleting(s, t, c) && LocksOk(s) && RowsOk(s)
    ensures Acts(s, SweepStep(s, t, c), t) && ThreadOk(SweepStep(s, t, c), t)
  {
    OwnLock(s, t, s.threads[t].project);
    OnlyKeepsRoles(s, SweepStep(s, t, c), t);
  }

  // -------------------------------------------------------------------- batch

  ghost predicate AtBatch(s: State, t: nat) { t < |s.threads| && s.threads[t].Batch? && ThreadOk(s, t) }

  lemma ReserveRefusedIsQuiet(s: State, t: nat, c: Choice)
    requires AtBatch(s, t) && s.threads[t].bpc.BReserve? && |c.ids| == |s.threads[t].targets| && LocksOk(s)
    requires c.refuse || !MayReserve(s.registry, s.threads[t].targets)
    ensures QuietlyOk(s, ReserveStep(s, t, c), t)
  {
    BatchPlain(s, t, BDone(0, false));
  }

  ghost predicate Reserving(s: State, t: nat, c: Choice) {
    AtBatch(s, t) && s.threads[t].bpc.BReserve? && |c.ids| == |s.threads[t].targets| && s.dmu.None? && !c.refuse &&
    MayReserve(s.registry, s.threads[t].targets) && FreshIds(s.registry, c.ids) &&
    forall i :: 0 <= i < |c.ids| ==> c.ids[i] !in s.h.drawnBy
  }

  ghost predicate Slots(s: State, s': State, t: nat, c: Choice) {
    t < |s.threads| && s.threads[t].Batch? &&
    (forall id :: id in s'.registry <==> id in s.registry || id in c.ids) &&
    (forall id :: id in s.registry ==> s'.registry[id] == s.registry[id]) &&
    (forall id :: id in c.ids ==> s'.registry[id].reserved && id !in s.registry && id !in s.h.drawnBy) &&
    (forall id :: id in s'.h.drawnBy <==> id in s.h.drawnBy || id in c.ids) &&
    (forall id :: id in s.h.drawnBy ==> s'.h.drawnBy[id] == s.h.drawnBy[id]) &&
    (forall id :: id in c.ids ==> s'.h.drawnBy[id] == t)
  }

  lemma ReserveSlots(s: State, t: nat, c: Choice)
    requires Reserving(s, t, c)
    ensures Slots(s, ReserveStep(s, t, c), t, c)
  {
    var th := s.threads[t];
    WithSlotsAdds(s.registry, th.from, th.fromSession, th.batch, th.targets, c.ids);
    var added := map id | id in c.ids :: t;
    forall id | id in c.ids ensures id !in s.registry && id !in s.h.drawnBy &&
      ReserveStep(s, t, c).registry[id].reserved
    {
      var i :| 0 <= i < |c.ids| && c.ids[i] == id;
    }
  }

  lemma ReserveRegistry(s: State, t: nat, c: Choice)
    requires Reserving(s, t, c) && Slots(s, ReserveStep(s, t, c), t, c) && Global(s)
    ensures Bounded(ReserveStep(s, t, c).registry) && RegistryOk(ReserveStep(s, t, c))
  {
    var th, s' := s.threads[t], ReserveStep(s, t, c);
    ReservingStaysBounded(s.registry, th.from, th.fromSession, th.batch, th.targets, c.ids);
    forall id ensures !Publishing(s, id) && !Publishing(s', id) { }
    forall id | id in c.ids ensures id !in s.h.withdrawn && id !in s.h.taken && id !in s.h.activated &&
      id !in s.h.ident { }
  }

  lemma ReserveOthers(s: State, t: nat, c: Choice)
    requires Reserving(s, t, c) && Slots(s, ReserveStep(s, t, c), t, c) && Global(s)
    ensures RowsOk(ReserveStep(s, t, c)) && OwnedOk(ReserveStep(s, t, c)) && EventsOk(ReserveStep(s, t, c))
    ensures DeletedOk(ReserveStep(s, t, c))
  {
    var s' := ReserveStep(s, t, c);
    RowsFrame(s, s');
    ReserveOwned(s, t, c);
    EventsFrame(s, s');
    DeletedFrame(s, s');
  }

  lemma ReserveOwned(s: State, t: nat, c: Choice)
    requires Reserving(s, t, c) && Slots(s, ReserveStep(s, t, c), t, c) && OwnedOk(s)
    ensures OwnedOk(ReserveStep(s, t, c))
  {
    OwnedFrame(s, ReserveStep(s, t, c));
  }

  lemma ReserveHistory(s: State, t: nat, c: Choice)
    requires Reserving(s, t, c) && Slots(s, ReserveStep(s, t, c), t, c) && HistoryOk(s)
    ensures HistoryOk(ReserveStep(s, t, c))
  {
    var s' := ReserveStep(s, t, c);
    forall id ensures !Publishing(s, id) && !Publishing(s', id) { }
    assert s'.h == s.h.(drawnBy := s'.h.drawnBy);
  }

  lemma ReserveLocks(s: State, t: nat, c: Choice)
    requires Reserving(s, t, c) && LocksOk(s) && StartersApart(s)
    ensures LocksOk(ReserveStep(s, t, c)) && StartersApart(ReserveStep(s, t, c))
  {
    LocksFrame(s, ReserveStep(s, t, c), t);
    ApartFrame(s, ReserveStep(s, t, c), t);
  }

  lemma ReserveGrows(s: State, t: nat, c: Choice)
    requires Reserving(s, t, c) && Slots(s, ReserveStep(s, t, c), t, c) && HistoryOk(s)
    ensures Grows(s, ReserveStep(s, t, c))
  {
    OnlyKeepsRoles(s, ReserveStep(s, t, c), t);
    ReserveHistoryGrows(s, t, c);
  }

  lemma ReserveHistoryGrows(s: State, t: nat, c: Choice)
    requires Reserving(s, t, c) && Slots(s, ReserveStep(s, t, c), t, c)
    ensures GrowsHistory(s.h, ReserveStep(s, t, c).h)
  {
  }

  lemma ReserveActs(s: State, t: nat, c: Choice)
    requires Reserving(s, t, c) && Slots(s, ReserveStep(s, t, c), t, c) && Grows(s, ReserveStep(s, t, c))
    ensures Acts(s, ReserveStep(s, t, c), t)
  {
  }

  lemma MembersAre(th: Thread, ids: seq<string>, s: State, t: nat)
    requires th.Batch? && |ids| == |th.targets| && th.from !in th.targets
    requires th.fromSession == NormalizedSession(th.fromSession)
    requires forall i, j :: 0 <= i < j < |ids| ==> ids[i] != ids[j]
    requires forall id :: id in ids ==> id in s.h.drawnBy && s.h.drawnBy[id] == t
    ensures MembersOk(s, t, th.from, th.fromSession, th.batch, th.targets, Members(th, ids))
    ensures forall j :: 0 <= j < |ids| ==> Members(th, ids)[j].id in ids
  {
  }

  lemma ReserveGoesOn(s: State, t: nat, c: Choice)
    requires Reserving(s, t, c) && Slots(s, ReserveStep(s, t, c), t, c) && s.h.launched <= s.h.drawnBy.Keys
    ensures ThreadOk(ReserveStep(s, t, c), t)
  {
    MembersAre(s.threads[t], c.ids, ReserveStep(s, t, c), t);
  }

  lemma LaunchForks(s: State, t: nat)
    requires AtBatch(s, t) && s.threads[t].bpc.BStart? && s.threads[t].bpc.i < |s.threads[t].reqs| && HistoryOk(s)
    ensures var req := s.threads[t].reqs[s.threads[t].bpc.i];
            Forks(s, LaunchMember(s, t, s.threads[t].bpc.i), t, Op(Starter(req, false), req.id, NO_RUN, LockFirst))
  {
  }

  lemma LaunchGoesOn(s: State, t: nat)
    requires AtBatch(s, t) && s.threads[t].bpc.BStart? && s.threads[t].bpc.i < |s.threads[t].reqs| && HistoryOk(s)
    ensures ThreadOk(LaunchMember(s, t, s.threads[t].bpc.i), t)
    ensures ThreadOk(LaunchMember(s, t, s.threads[t].bpc.i), |s.threads|)
  {
  }

  lemma UndoForks(s: State, t: nat, c: Choice)
    requires AtBatch(s, t) && s.threads[t].bpc.BUndo? && s.threads[t].bpc.k < s.threads[t].bpc.i && HistoryOk(s)
    ensures var id := s.threads[t].reqs[s.threads[t].bpc.k].id;
            Forks(s, BatchStep(s, t, c), t, Cancelling(s, id))
  {
  }

  lemma UndoGoesOn(s: State, t: nat, c: Choice)
    requires AtBatch(s, t) && s.threads[t].bpc.BUndo? && s.threads[t].bpc.k < s.threads[t].bpc.i
    ensures ThreadOk(BatchStep(s, t, c), t)
  {
  }

  lemma UndoCancels(s: State, t: nat, c: Choice)
    requires AtBatch(s, t) && s.threads[t].bpc.BUndo? && s.threads[t].bpc.k < s.threads[t].bpc.i
    ensures ThreadOk(BatchStep(s, t, c), |s.threads|)
  {
    assert BatchStep(s, t, c).threads[|s.threads|] == Cancelling(s, s.threads[t].reqs[s.threads[t].bpc.k].id);
  }

  /** A batch moves on without touching anything else. */
  lemma BatchPlain(s: State, t: nat, bpc: BatchPc)
    requires AtBatch(s, t) && LocksOk(s)
    ensures Quiet(s, Put(s, t, s.threads[t].(bpc := bpc)), t)
  {
    PlainIsQuiet(s, Put(s, t, s.threads[t].(bpc := bpc)), t, s.threads[t].(bpc := bpc));
  }

  lemma BatchGoesOn(s: State, t: nat, c: Choice)
    requires AtBatch(s, t) && BatchEnabled(s, s.threads[t].targets, s.threads[t].bpc, c)
    requires var th := s.threads[t];
             (th.bpc.BStart? && th.bpc.i >= |th.reqs|) || (th.bpc.BUndo? && th.bpc.k >= th.bpc.i) ||
             (th.bpc.BClean? && th.bpc.k >= |th.reqs|)
    ensures ThreadOk(BatchStep(s, t, c), t)
  {
  }

  lemma BatchWaitGoesOn(s: State, t: nat, c: Choice)
    requires AtBatch(s, t) && BatchEnabled(s, s.threads[t].targets, s.threads[t].bpc, c)
    requires s.threads[t].bpc.BWait? && ThreadOk(s, s.threads[t].bpc.child)
    ensures ThreadOk(BatchStep(s, t, c), t)
  {
    MemberDone(s, s.threads[t].bpc.child);
  }

  /** A start that ended began its run, or is over. */
  lemma MemberDone(s: State, child: nat)
    requires child < |s.threads| && IsStart(s.threads[child]) && s.threads[child].pc.Done? && ThreadOk(s, child)
    ensures if s.threads[child].pc.ok then s.threads[child].id in s.h.activated else Over(s, s.threads[child].id)
  {
  }

  lemma BatchUndoWaitGoesOn(s: State, t: nat, c: Choice)
    requires AtBatch(s, t) && BatchEnabled(s, s.threads[t].targets, s.threads[t].bpc, c)
    requires s.threads[t].bpc.BUndoWait? && ThreadOk(s, s.threads[t].bpc.child)
    ensures ThreadOk(BatchStep(s, t, c), t)
  {
  }

  lemma CleanRegistry(s: State, t: nat, c: Choice)
    requires AtBatch(s, t) && s.threads[t].bpc.BClean? && s.threads[t].bpc.k < |s.threads[t].reqs| && s.dmu.None?
    requires RegistryOk(s) && HistoryOk(s)
    ensures CalmRegistry(s, BatchStep(s, t, c))
  {
    CleanRemoves(s, t, c);
    SlotGoesCalmly(s, BatchStep(s, t, c), s.threads[t].reqs[s.threads[t].bpc.k].id);
  }

  lemma SlotGoesCalmly(s: State, s': State, id: string)
    requires RegistryOk(s) && s.dmu.None? && s'.h == s.h
    requires s'.registry == if NotReserved(s, id) then s.registry else s.registry - {id}
    ensures CalmRegistry(s, s')
  {
  }

  lemma CleanRemoves(s: State, t: nat, c: Choice)
    requires AtBatch(s, t) && s.threads[t].bpc.BClean? && s.threads[t].bpc.k < |s.threads[t].reqs| && s.dmu.None?
    ensures var s', id := BatchStep(s, t, c), s.threads[t].reqs[s.threads[t].bpc.k].id;
            s'.h == s.h && s'.rows == s.rows &&
            s'.registry == if NotReserved(s, id) then s.registry else s.registry - {id}
  {
  }

  lemma CleanNotes(s: State, t: nat, c: Choice)
    requires AtBatch(s, t) && s.threads[t].bpc.BClean? && s.threads[t].bpc.k < |s.threads[t].reqs| && s.dmu.None?
    requires HistoryOk(s)
    ensures CalmNotes(s, BatchStep(s, t, c), t)
  {
  }

  lemma CleanIsCalm(s: State, t: nat, c: Choice)
    requires AtBatch(s, t) && s.threads[t].bpc.BClean? && s.threads[t].bpc.k < |s.threads[t].reqs| && s.dmu.None?
    requires CalmRegistry(s, BatchStep(s, t, c)) && CalmNotes(s, BatchStep(s, t, c), t)
    requires s.sessions <= s.h.chats && s.h.deleted !! s.sessions
    ensures Calm(s, BatchStep(s, t, c), t)
  {
  }

  lemma CleanGoesOn(s: State, t: nat, c: Choice)
    requires AtBatch(s, t) && s.threads[t].bpc.BClean? && s.threads[t].bpc.k < |s.threads[t].reqs| && s.dmu.None?
    ensures ThreadOk(BatchStep(s, t, c), t)
  {
  }
}
