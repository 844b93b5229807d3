/** Each step of an operation in the delegation protocol keeps the invariant. */
module DelegationSteps {
  import opened DelegationRuns
  import opened DelegationStore
  import opened DelegationRegistry
  import opened DelegationProtocol
  import opened DelegationInvariant
  import opened DelegationFrames
  import opened Wrappers

  ghost predicate Good(s: State, s': State, t: nat) {
    Acts(s, s', t) && Global(s') && t < |s'.threads| == |s.threads| && ThreadOk(s', t)
  }

  ghost predicate AtPc(s: State, t: nat, pc: Pc) {
    t < |s.threads| && s.threads[t].Op? && s.threads[t].pc == pc && ThreadOk(s, t)
  }

  // -------------------------------------------- steps that change little else

  lemma OwnLock(s: State, t: nat, p: string)
    requires LocksOk(s) && t < |s.threads| && Holds(s.threads[t], p)
    ensures p in s.meta && s.meta[p] == t
  {
  }

  ghost predicate QuietlyOk(s: State, s': State, t: nat) {
    Quiet(s, s', t) && ThreadOk(s', t)
  }

  /** A step that moves one thread, and at most notes a store error or announces. */
  lemma PlainIsQuiet(s: State, s': State, t: nat, th: Thread)
    requires LocksOk(s) && t < |s.threads| && SameRole(s.threads[t], th) && !HoldsOwners(s.threads[t]) &&
             !HoldsOwners(th)
    requires s' == s.(threads := s.threads[t := th], events := s'.events, h := s.h.(faulted := s'.h.faulted))
    requires s.h.faulted <= s'.h.faulted
    requires forall p :: Holds(th, p) ==> Holds(s.threads[t], p)
    ensures Quiet(s, s', t)
  {
  }

  lemma LockFirstIsQuiet(s: State, t: nat)
    requires AtPc(s, t, LockFirst) && LocksOk(s)
    requires s.threads[t].kind.Starter? && FirstLock(s.threads[t].kind.req) !in s.meta
    ensures QuietlyOk(s, LockStep(s, t, FirstLock(s.threads[t].kind.req), LockSecond), t)
  {
  }

  lemma LockSecondIsQuiet(s: State, t: nat)
    requires AtPc(s, t, LockSecond) && LocksOk(s)
    requires s.threads[t].kind.Starter? && SecondLock(s.threads[t].kind.req) !in s.meta
    ensures QuietlyOk(s, LockStep(s, t, SecondLock(s.threads[t].kind.req), Create), t)
  {
    OwnLock(s, t, FirstLock(s.threads[t].kind.req));
  }

  lemma ClaimRefusedIsQuiet(s: State, t: nat)
    requires AtPc(s, t, Claim) && LocksOk(s) && s.threads[t].kind.Starter?
    ensures Quiet(s, ClaimStep(s, t, false), t)
  {
    OwnLock(s, t, s.threads[t].kind.req.from);
    OwnLock(s, t, s.threads[t].kind.req.to);
  }

  lemma ClaimRefusedGoesOn(s: State, t: nat)
    requires AtPc(s, t, Claim) && LocksOk(s) && s.threads[t].kind.Starter?
    ensures ThreadOk(ClaimStep(s, t, false), t)
  {
  }

  lemma SpawnRefusedIsQuiet(s: State, t: nat, c: Choice)
    requires AtPc(s, t, Spawn) && LocksOk(s) && c.refuse && s.threads[t].kind.Starter? && !s.threads[t].kind.busy
    ensures QuietlyOk(s, SpawnStep(s, t, c), t)
  {
  }

  /** While no publication is in progress, a run's entry is the owner its start
      installed, so the owner test can only fail because the entry is gone. */
  lemma OwnerIsExact(s: State, id: string)
    requires RegistryOk(s) && RowsOk(s) && HistoryOk(s) && s.dmu.None? && id in s.h.activated
    ensures id in s.h.ident && (id in s.registry <==> Owns(s.registry, s.h.ident[id]))
    ensures id in s.rows ==> (id in s.registry <==> Owns(s.registry, s.rows[id]))
  {
  }

  /** A monitor that finds its owner gone has nothing left to settle. */
  lemma OwnerlessIsSettled(s: State, id: string)
    requires RegistryOk(s) && RowsOk(s) && HistoryOk(s) && OwnedOk(s) && s.dmu.None? && id in s.h.activated
    requires !Owns(s.registry, s.h.ident[id])
    ensures Settled(s, id) || s.shutdown
  {
  }

  lemma PollGoesOn(s: State, t: nat, c: Choice)
    requires AtPc(s, t, Poll) && s.threads[t].kind.Watcher? && (c.refuse ==> s.shutdown)
    requires !Owns(s.registry, s.threads[t].run) ==> Settled(s, s.threads[t].id) || s.shutdown
    ensures ThreadOk(PollStep(s, t, c), t)
  {
  }

  lemma PollIsQuiet(s: State, t: nat, c: Choice)
    requires AtPc(s, t, Poll) && s.threads[t].kind.Watcher? && LocksOk(s)
    ensures Quiet(s, PollStep(s, t, c), t)
  {
    PlainIsQuiet(s, PollStep(s, t, c), t, PollStep(s, t, c).threads[t]);
  }

  lemma LoadIsQuiet(s: State, t: nat, c: Choice)
    requires AtPc(s, t, Load) && s.threads[t].kind.Watcher? && (c.next == Finish || c.next == Tail || c.next == Poll)
    requires LocksOk(s)
    ensures QuietlyOk(s, LoadStep(s, t, c), t) && LoadStep(s, t, c).events == s.events
  {
    LoadGoesOn(s, t, c);
    PlainIsQuiet(s, LoadStep(s, t, c), t, LoadStep(s, t, c).threads[t]);
  }

  lemma LoadGoesOn(s: State, t: nat, c: Choice)
    requires AtPc(s, t, Load) && s.threads[t].kind.Watcher? && (c.next == Finish || c.next == Tail || c.next == Poll)
    ensures ThreadOk(LoadStep(s, t, c), t)
  {
    var th, s' := s.threads[t], LoadStep(s, t, c);
    assert WatcherOk(s, th.id, th.run, Load);
    assert s'.threads[t] == th.(pc := s'.threads[t].pc);
    assert Begun(s', th.id, th.run);
    assert WatcherOk(s', th.id, th.run, s'.threads[t].pc);
  }

  lemma ReloadIsQuiet(s: State, t: nat, c: Choice)
    requires AtPc(s, t, Reload) && LocksOk(s) && s.threads[t].kind.Watcher?
    ensures QuietlyOk(s, ReloadStep(s, t, c), t) && ReloadStep(s, t, c).events == s.events
  {
    ReloadGoesOn(s, t, c);
    PlainIsQuiet(s, ReloadStep(s, t, c), t, ReloadStep(s, t, c).threads[t]);
  }

  lemma ReloadGoesOn(s: State, t: nat, c: Choice)
    requires AtPc(s, t, Reload) && s.threads[t].kind.Watcher?
    ensures ThreadOk(ReloadStep(s, t, c), t)
  {
    var th, s' := s.threads[t], ReloadStep(s, t, c);
    assert WatcherOk(s, th.id, th.run, Reload);
    ReloadMoves(s, t, c);
    assert WatcherOk(s', th.id, th.run, s'.threads[t].pc);
  }

  lemma ReloadMoves(s: State, t: nat, c: Choice)
    requires t < |s.threads| && s.threads[t].Op? && s.threads[t].kind.Watcher?
    ensures var th, s' := s.threads[t], ReloadStep(s, t, c);
            (s'.threads[t] == th.(pc := Take) || s'.threads[t] == th.(pc := Release(false))) &&
            s'.rows == s.rows && s'.shutdown == s.shutdown && s'.h == s.h.(faulted := s'.h.faulted) &&
            s.h.faulted <= s'.h.faulted &&
            (s'.threads[t].pc.Take? && th.id !in s'.h.faulted ==> !(th.id in s.rows && !Live(s.rows[th.id])))
  {
  }

  lemma EmitStorageIsQuiet(s: State, t: nat)
    requires AtPc(s, t, EmitStorage) && LocksOk(s)
    ensures Quiet(s, EmitStorageStep(s, t), t)
  {
    PlainIsQuiet(s, EmitStorageStep(s, t), t, EmitStorageStep(s, t).threads[t]);
  }

  lemma EmitStorageGoesOn(s: State, t: nat)
    requires AtPc(s, t, EmitStorage)
    ensures ThreadOk(EmitStorageStep(s, t), t)
  {
  }

  lemma EmitIsQuiet(s: State, t: nat, changed: bool)
    requires AtPc(s, t, Emit(changed)) && LocksOk(s)
    ensures Quiet(s, EmitStep(s, t), t)
  {
  }

  lemma EmitGoesOn(s: State, t: nat, changed: bool)
    requires AtPc(s, t, Emit(changed))
    ensures ThreadOk(EmitStep(s, t), t)
  {
  }

  lemma FinishRefusedIsQuiet(s: State, t: nat, c: Choice)
    requires AtPc(s, t, Finish) && LocksOk(s)
    requires c.fault || s.threads[t].id !in s.rows || !Live(s.rows[s.threads[t].id])
    ensures Quiet(s, FinishStep(s, t, c), t)
  {
    if HoldsBoth(s.threads[t]) {
      BusyFinishRefusedIsQuiet(s, t, c);
    } else {
      FinishTakesNoLock(s.threads[t], FinishStep(s, t, c).threads[t]);
      PlainIsQuiet(s, FinishStep(s, t, c), t, FinishStep(s, t, c).threads[t]);
    }
  }

  lemma FinishTakesNoLock(th: Thread, th': Thread)
    requires th.Op? && th.pc.Finish? && th'.Op? && th' == th.(pc := th'.pc)
    requires th'.pc.Take? || th'.pc.Done? || th'.pc.Emit? || th'.pc.Release?
    ensures !HoldsOwners(th) && !HoldsOwners(th') && SameRole(th, th') && forall p :: Holds(th', p) ==> Holds(th, p)
  {
  }

  /** The queue refused the run: its start still holds both metadata locks, and gives
      them up if it fails to say so in the table. */
  lemma BusyFinishRefusedIsQuiet(s: State, t: nat, c: Choice)
    requires AtPc(s, t, Finish) && LocksOk(s) && HoldsBoth(s.threads[t])
    requires c.fault || s.threads[t].id !in s.rows || !Live(s.rows[s.threads[t].id])
    ensures Quiet(s, FinishStep(s, t, c), t)
  {
    var th, s' := s.threads[t], FinishStep(s, t, c);
    OwnLock(s, t, th.kind.req.from);
    OwnLock(s, t, th.kind.req.to);
    FinishTakesNoLock(th, s'.threads[t]);
    if c.fault || th.id !in s.rows {
      assert forall p :: !Holds(s'.threads[t], p);
    } else {
      assert s'.meta == s.meta;
    }
  }

  lemma FinishRefusedGoesOn(s: State, t: nat, c: Choice)
    requires AtPc(s, t, Finish) && LocksOk(s)
    requires c.fault || s.threads[t].id !in s.rows || !Live(s.rows[s.threads[t].id])
    ensures ThreadOk(FinishStep(s, t, c), t)
  {
  }

  lemma TakeMissedIsQuiet(s: State, t: nat)
    requires AtPc(s, t, Take) && LocksOk(s) && !Owns(s.registry, s.threads[t].run)
    ensures Quiet(s, TakeStep(s, t), t)
  {
    TakeHoldsNothing(s.threads[t]);
    PlainIsQuiet(s, TakeStep(s, t), t, TakeStep(s, t).threads[t]);
  }

  lemma TakeHoldsNothing(th: Thread)
    requires th.Op? && th.pc.Take?
    ensures var th' := th.(pc := AfterTake(th.kind));
            !HoldsOwners(th) && !HoldsOwners(th') && SameRole(th, th') && forall p :: !Holds(th', p)
  {
  }

  lemma TakeMissedGoesOn(s: State, t: nat)
    requires AtPc(s, t, Take) && !Owns(s.registry, s.threads[t].run) && s.threads[t].id !in s.registry
    ensures ThreadOk(TakeStep(s, t), t)
  {
  }

  // ------------------------------------------------ steps that remove something

  lemma CreateKeepsRegistry(s: State, t: nat, c: Choice)
    requires AtPc(s, t, Create) && s.threads[t].kind.Starter? && RegistryOk(s)
    requires forall id :: id in s.rows ==> s.rows[id].id == id
    ensures CalmRegistry(s, CreateStep(s, t, c))
  {
  }

  lemma CreateNotes(s: State, t: nat, c: Choice)
    requires AtPc(s, t, Create) && s.threads[t].kind.Starter? && HistoryOk(s)
    ensures CalmNotes(s, CreateStep(s, t, c), t)
  {
  }

  lemma CreateRefusedIsCalm(s: State, t: nat, c: Choice)
    requires AtPc(s, t, Create) && s.threads[t].kind.Starter? && LocksOk(s) && HistoryOk(s)
    requires CalmRegistry(s, CreateStep(s, t, c)) && CalmNotes(s, CreateStep(s, t, c), t)
    requires c.refuse || (s.threads[t].kind.req.from, s.threads[t].kind.req.fromSession) !in s.sessions
    ensures Calm(s, CreateStep(s, t, c), t)
  {
    OwnLock(s, t, s.threads[t].kind.req.from);
    OwnLock(s, t, s.threads[t].kind.req.to);
    HoldsNothing(CreateStep(s, t, c).threads[t]);
  }

  lemma CreateIsCalm(s: State, t: nat, c: Choice)
    requires AtPc(s, t, Create) && s.threads[t].kind.Starter? && LocksOk(s) && HistoryOk(s)
    requires CalmRegistry(s, CreateStep(s, t, c)) && CalmNotes(s, CreateStep(s, t, c), t)
    requires !c.refuse && (s.threads[t].kind.req.from, s.threads[t].kind.req.fromSession) in s.sessions
    requires (s.threads[t].kind.req.to, c.name) !in s.h.chats && c.name != ""
    ensures Calm(s, CreateStep(s, t, c), t)
  {
    OwnLock(s, t, s.threads[t].kind.req.from);
    OwnLock(s, t, s.threads[t].kind.req.to);
  }

  lemma CreateRefusedGoesOn(s: State, t: nat, c: Choice)
    requires AtPc(s, t, Create) && s.threads[t].kind.Starter?
    requires c.refuse || (s.threads[t].kind.req.from, s.threads[t].kind.req.fromSession) !in s.sessions
    ensures ThreadOk(CreateStep(s, t, c), t)
  {
  }

  lemma CreateGoesOn(s: State, t: nat, c: Choice)
    requires AtPc(s, t, Create) && s.threads[t].kind.Starter? && c.name != ""
    requires !c.refuse && (s.threads[t].kind.req.from, s.threads[t].kind.req.fromSession) in s.sessions
    ensures ThreadOk(CreateStep(s, t, c), t)
  {
  }

  lemma RowIds(s: State)
    requires RowsOk(s) && HistoryOk(s)
    ensures forall id :: id in s.rows ==> s.rows[id].id == id
  {
  }

  lemma WithdrawRegistry(s: State, t: nat)
    requires AtPc(s, t, Withdraw) && s.threads[t].kind.Starter? && RegistryOk(s) && s.dmu.None?
    ensures CalmRegistry(s, WithdrawStep(s, t))
  {
  }

  lemma WithdrawNotes(s: State, t: nat)
    requires AtPc(s, t, Withdraw) && s.threads[t].kind.Starter? && HistoryOk(s)
    ensures CalmNotes(s, WithdrawStep(s, t), t)
  {
  }

  lemma WithdrawIsCalm(s: State, t: nat)
    requires AtPc(s, t, Withdraw) && s.threads[t].kind.Starter? && LocksOk(s) && s.dmu.None?
    requires s.sessions <= s.h.chats && s.h.deleted !! s.sessions
    requires CalmRegistry(s, WithdrawStep(s, t)) && CalmNotes(s, WithdrawStep(s, t), t)
    ensures Calm(s, WithdrawStep(s, t), t)
  {
    OwnLock(s, t, s.threads[t].kind.req.from);
    OwnLock(s, t, s.threads[t].kind.req.to);
  }

  lemma WithdrawGoesOn(s: State, t: nat)
    requires AtPc(s, t, Withdraw) && s.threads[t].kind.Starter?
    ensures ThreadOk(WithdrawStep(s, t), t)
  {
  }

  lemma LookupReservedRegistry(s: State, t: nat)
    requires AtPc(s, t, Lookup) && s.threads[t].kind.Canceller? && RegistryOk(s)
    requires s.dmu.None? && s.threads[t].id in s.registry && s.registry[s.threads[t].id].reserved
    requires forall id :: id in s.rows ==> s.rows[id].id == id
    ensures CalmRegistry(s, LookupStep(s, t))
  {
    assert LookupStep(s, t).registry == s.registry - {s.threads[t].id};
  }

  lemma LookupReservedNotes(s: State, t: nat)
    requires AtPc(s, t, Lookup) && s.threads[t].kind.Canceller? && HistoryOk(s) && RegistryOk(s)
    requires s.dmu.None? && s.threads[t].id in s.registry && s.registry[s.threads[t].id].reserved
    ensures CalmNotes(s, LookupStep(s, t), t)
  {
    var th := s.threads[t];
    assert !Publishing(s, th.id) && th.id !in s.h.ident;
  }

  lemma LookupReservedIsCalm(s: State, t: nat)
    requires AtPc(s, t, Lookup) && s.threads[t].kind.Canceller? && s.sessions <= s.h.chats && s.h.deleted !! s.sessions
    requires s.dmu.None? && s.threads[t].id in s.registry && s.registry[s.threads[t].id].reserved
    requires CalmRegistry(s, LookupStep(s, t)) && CalmNotes(s, LookupStep(s, t), t)
    ensures Calm(s, LookupStep(s, t), t)
  {
  }

  lemma LookupReservedGoesOn(s: State, t: nat)
    requires AtPc(s, t, Lookup) && s.threads[t].kind.Canceller? && RegistryOk(s)
    requires s.threads[t].id in s.registry && s.registry[s.threads[t].id].reserved
    ensures ThreadOk(LookupStep(s, t), t)
  {
  }

  lemma LookupIsQuiet(s: State, t: nat)
    requires AtPc(s, t, Lookup) && s.threads[t].kind.Canceller? && LocksOk(s)
    requires s.threads[t].id in s.registry ==> !s.registry[s.threads[t].id].reserved
    ensures Quiet(s, LookupStep(s, t), t)
  {
    PlainIsQuiet(s, LookupStep(s, t), t, LookupStep(s, t).threads[t]);
  }

  lemma LookupGoesOn(s: State, t: nat)
    requires AtPc(s, t, Lookup) && s.threads[t].kind.Canceller? && HistoryOk(s) && RegistryOk(s)
    requires s.dmu.None? && (s.threads[t].id in s.registry ==> !s.registry[s.threads[t].id].reserved)
    ensures ThreadOk(LookupStep(s, t), t)
  {
  }

  lemma TakeRegistry(s: State, t: nat)
    requires AtPc(s, t, Take) && RegistryOk(s) && forall id :: id in s.rows ==> s.rows[id].id == id
    requires s.dmu.None? && Owns(s.registry, s.threads[t].run)
    ensures CalmRegistry(s, TakeStep(s, t))
  {
    var th, s' := s.threads[t], TakeStep(s, t);
    assert th.run.id == th.id && Settled(s, th.id);
    assert s'.registry == s.registry - {th.id};
    assert s'.h.withdrawn == s.h.withdrawn && s'.h.taken == s.h.taken[th.id := t];
  }

  lemma TakeNotes(s: State, t: nat)
    requires AtPc(s, t, Take) && HistoryOk(s) && Owns(s.registry, s.threads[t].run) && s.threads[t].id !in s.h.taken
    ensures CalmNotes(s, TakeStep(s, t), t)
  {
    var th, s' := s.threads[t], TakeStep(s, t);
    assert th.run.id == th.id && th.id in s.h.activated;
    assert s'.h.taken == s.h.taken[th.id := t];
  }

  lemma TakeIsCalm(s: State, t: nat)
    requires AtPc(s, t, Take) && LocksOk(s) && s.dmu.None? && Owns(s.registry, s.threads[t].run)
    requires s.sessions <= s.h.chats && s.h.deleted !! s.sessions
    requires CalmRegistry(s, TakeStep(s, t)) && CalmNotes(s, TakeStep(s, t), t)
    ensures Calm(s, TakeStep(s, t), t)
  {
    HoldsNothing(s.threads[t]);
    HoldsNothing(TakeStep(s, t).threads[t]);
  }

  /** Past its finish, an operation that is not announcing a refusal holds no lock. */
  lemma HoldsNothing(th: Thread)
    requires th.Op? && (th.pc.Take? || th.pc.EmitStorage? || th.pc.Done?)
    ensures !HoldsOwners(th) && forall p :: !Holds(th, p)
  {
  }

  lemma TakeGoesOn(s: State, t: nat)
    requires AtPc(s, t, Take) && EventsOk(s) && s.threads[t].id !in s.h.taken
    requires Owns(s.registry, s.threads[t].run)
    ensures ThreadOk(TakeStep(s, t), t)
  {
  }

  lemma MayRelease(s: State, t: nat, changed: bool)
    requires AtPc(s, t, Release(changed))
    ensures Settled(s, s.threads[t].id) || s.shutdown
    ensures s.threads[t].run.id == s.threads[t].id
  {
  }

  lemma ReleaseRegistry(s: State, t: nat)
    requires t < |s.threads| && s.threads[t].Op? && s.threads[t].pc.Release? && RegistryOk(s) && s.dmu.None?
    requires Settled(s, s.threads[t].id) || s.shutdown
    requires s.threads[t].run.id == s.threads[t].id
    requires forall id :: id in s.rows ==> s.rows[id].id == id
    ensures CalmRegistry(s, ReleaseStep(s, t))
  {
  }

  lemma ReleaseNotes(s: State, t: nat, changed: bool)
    requires AtPc(s, t, Release(changed)) && HistoryOk(s)
    ensures CalmNotes(s, ReleaseStep(s, t), t)
  {
  }

  lemma ReleaseIsCalm(s: State, t: nat, changed: bool)
    requires AtPc(s, t, Release(changed)) && LocksOk(s) && s.dmu.None?
    requires s.sessions <= s.h.chats && s.h.deleted !! s.sessions
    requires CalmRegistry(s, ReleaseStep(s, t)) && CalmNotes(s, ReleaseStep(s, t), t)
    ensures Calm(s, ReleaseStep(s, t), t)
  {
  }

  lemma ReleaseGoesOn(s: State, t: nat, changed: bool)
    requires AtPc(s, t, Release(changed))
    ensures ThreadOk(ReleaseStep(s, t), t)
  {
  }
}
