/** The guarantees of the delegation protocol, over every interleaving. */
module DelegationTheorems {
  import opened DelegationRuns
  import opened DelegationStore
  import opened DelegationRegistry
  import opened DelegationProtocol
  import opened DelegationInvariant
  import opened DelegationFrames
  import opened DelegationSteps
  import opened DelegationPublish
  import opened DelegationCallers
  import opened Wrappers

  // ------------------------------------------------------------ one operation

  ghost predicate OpMay(s: State, t: nat, c: Choice) {
    Inv(s) && t < |s.threads| && s.threads[t].Op? && ThreadOk(s, t) &&
    OpEnabled(s, s.threads[t].kind, s.threads[t].id, s.threads[t].run, s.threads[t].pc, c)
  }

  lemma QuietIsGood(s: State, s': State, t: nat)
    requires Global(s) && QuietlyOk(s, s', t) && s'.events == s.events
    ensures Good(s, s', t)
  {
    QuietKeeps(s, s', t);
  }

  lemma CalmIsGood(s: State, s': State, t: nat)
    requires Global(s) && Calm(s, s', t) && ThreadOk(s', t)
    ensures Good(s, s', t)
  {
    CalmKeeps(s, s', t);
  }

  lemma LockingIsGood(s: State, t: nat, c: Choice)
    requires OpMay(s, t, c) && (s.threads[t].pc.LockFirst? || s.threads[t].pc.LockSecond?)
    ensures Good(s, OpStep(s, t, c), t)
  {
    if s.threads[t].pc.LockFirst? { LockFirstIsQuiet(s, t); } else { LockSecondIsQuiet(s, t); }
    QuietIsGood(s, OpStep(s, t, c), t);
  }

  lemma CreateIsGood(s: State, t: nat, c: Choice)
    requires OpMay(s, t, c) && s.threads[t].pc.Create?
    ensures Good(s, OpStep(s, t, c), t)
  {
    RowIds(s); CreateKeepsRegistry(s, t, c); CreateNotes(s, t, c);
    if c.refuse || (s.threads[t].kind.req.from, s.threads[t].kind.req.fromSession) !in s.sessions {
      CreateRefusedIsCalm(s, t, c); CreateRefusedGoesOn(s, t, c);
    } else {
      CreateIsCalm(s, t, c); CreateGoesOn(s, t, c);
    }
    CalmIsGood(s, OpStep(s, t, c), t);
  }

  lemma ClaimIsGood(s: State, t: nat, c: Choice)
    requires OpMay(s, t, c) && s.threads[t].pc.Claim?
    ensures Good(s, OpStep(s, t, c), t)
  {
    if MayPublish(s, s.threads[t].kind.req, s.threads[t].run) {
      ClaimedIsGood(s, t);
    } else {
      ClaimRefusedIsQuiet(s, t); ClaimRefusedGoesOn(s, t);
      QuietIsGood(s, ClaimStep(s, t, false), t);
    }
  }

  lemma ClaimedIsGood(s: State, t: nat)
    requires Global(s) && Claiming(s, t)
    ensures Good(s, ClaimStep(s, t, true), t)
  {
    ClaimBounded(s, t); ClaimRegistry(s, t); ClaimOthers(s, t); ClaimOwned(s, t); ClaimDeleted(s, t); ClaimLocks(s, t);
    ClaimGrows(s, t); ClaimActs(s, t); ClaimActsAround(s, t); ClaimGoesOn(s, t);
  }

  lemma AppendFaultIsGood(s: State, t: nat, c: Choice)
    requires Global(s) && Appending(s, t) && c.fault
    ensures Good(s, AppendStep(s, t, c), t)
  {
    AppendFaultRegistry(s, t, c); AppendFaultOwned(s, t, c); AppendFaultOthers(s, t, c); AppendFaultHistory(s, t, c);
    AppendFaultDeleted(s, t, c);
    AppendFaultLocks(s, t, c); AppendFaultActs(s, t, c); AppendFaultGoesOn(s, t, c);
  }

  lemma WritingIsGood(s: State, t: nat, c: Choice)
    requires Global(s) && Writing(s, t, c)
    ensures Good(s, AppendStep(s, t, c), t)
  {
    AppendRegistry(s, t, c); AppendRows(s, t, c); AppendHistory(s, t, c); AppendEvents(s, t, c); AppendDeleted(s, t, c);
    AppendLocks(s, t, c); AppendGrows(s, t, c);
    OwnLock(s, t, s.threads[t].kind.req.from); OwnLock(s, t, s.threads[t].kind.req.to);
    AppendActs(s, t, c); AppendActsAround(s, t, c); AppendGoesOn(s, t, c);
  }

  lemma MayAppend(s: State, t: nat, c: Choice)
    requires LocksOk(s) && AtPc(s, t, Append)
    requires OpEnabled(s, s.threads[t].kind, s.threads[t].id, s.threads[t].run, Append, c)
    ensures Appending(s, t) && (!c.fault ==> Writing(s, t, c))
  {
    assert HoldsOwners(s.threads[t]);
  }

  lemma AppendIsGood(s: State, t: nat, c: Choice)
    requires OpMay(s, t, c) && s.threads[t].pc.Append?
    ensures Good(s, AppendStep(s, t, c), t)
  {
    MayAppend(s, t, c);
    if c.fault { AppendFaultIsGood(s, t, c); } else { WritingIsGood(s, t, c); }
  }

  lemma ActivateGlobal(s: State, t: nat, c: Choice)
    requires Global(s) && Activating(s, t)
    ensures Global(ActivateStep(s, t, c))
  {
    ActivateBounded(s, t, c); ActivateRegistry(s, t, c); ActivateOwned(s, t, c); ActivateRest(s, t, c);
    ActivateHistory(s, t, c); ActivateDeleted(s, t, c); ActivateLocks(s, t, c);
  }

  lemma ActivatingActs(s: State, t: nat, c: Choice)
    requires Global(s) && Activating(s, t)
    ensures Acts(s, ActivateStep(s, t, c), t)
  {
    ActivateGrows(s, t, c);
    OwnLock(s, t, s.threads[t].kind.req.from); OwnLock(s, t, s.threads[t].kind.req.to);
    ActivateActs(s, t, c); ActivateActsAround(s, t, c);
  }

  lemma MayActivate(s: State, t: nat, c: Choice)
    requires OpMay(s, t, c) && s.threads[t].pc.Activate?
    ensures Activating(s, t) && OpStep(s, t, c) == ActivateStep(s, t, c)
  {
    assert HoldsOwners(s.threads[t]);
  }

  lemma ActivateIsGood(s: State, t: nat, c: Choice)
    requires OpMay(s, t, c) && s.threads[t].pc.Activate?
    ensures Good(s, OpStep(s, t, c), t)
  {
    MayActivate(s, t, c);
    ActivateGlobal(s, t, c);
    ActivatingActs(s, t, c);
    ActivateGoesOn(s, t, c);
  }

  lemma WithdrawIsGood(s: State, t: nat, c: Choice)
    requires OpMay(s, t, c) && s.threads[t].pc.Withdraw?
    ensures Good(s, OpStep(s, t, c), t)
  {
    WithdrawRegistry(s, t); WithdrawNotes(s, t); WithdrawIsCalm(s, t); WithdrawGoesOn(s, t);
    CalmIsGood(s, OpStep(s, t, c), t);
  }

  lemma PollIsGood(s: State, t: nat, c: Choice)
    requires OpMay(s, t, c) && s.threads[t].pc.Poll?
    ensures Good(s, OpStep(s, t, c), t)
  {
    if !Owns(s.registry, s.threads[t].run) { OwnerlessIsSettled(s, s.threads[t].id); }
    PollIsQuiet(s, t, c); PollGoesOn(s, t, c);
    QuietIsGood(s, OpStep(s, t, c), t);
  }

  lemma LoadIsGood(s: State, t: nat, c: Choice)
    requires Global(s) && AtPc(s, t, Load) && s.threads[t].kind.Watcher?
    requires c.next == Finish || c.next == Tail || c.next == Poll
    ensures Good(s, LoadStep(s, t, c), t)
  {
    LoadIsQuiet(s, t, c);
    QuietIsGood(s, LoadStep(s, t, c), t);
  }

  lemma ReloadIsGood(s: State, t: nat, c: Choice)
    requires Global(s) && AtPc(s, t, Reload) && s.threads[t].kind.Watcher?
    ensures Good(s, ReloadStep(s, t, c), t)
  {
    ReloadIsQuiet(s, t, c);
    QuietIsGood(s, ReloadStep(s, t, c), t);
  }

  lemma TailIsGood(s: State, t: nat, c: Choice)
    requires OpMay(s, t, c) && s.threads[t].pc.Tail?
    ensures Good(s, OpStep(s, t, c), t)
  {
    var id := s.threads[t].id;
    if !c.fault && id in s.rows && Live(s.rows[id]) {
      TailRewrites(s, t, c); TailGoesOn(s, t, c);
      RewriteKeeps(s, OpStep(s, t, c), t, c, s.rows[id].(detail := c.detail));
    } else {
      TailIsQuiet(s, t, c);
      QuietIsGood(s, OpStep(s, t, c), t);
    }
  }

  lemma WithdrawnIsGood(s: State, t: nat)
    requires Global(s) && AtPc(s, t, Lookup) && s.threads[t].kind.Canceller? && s.dmu.None?
    requires s.threads[t].id in s.registry && s.registry[s.threads[t].id].reserved
    ensures Good(s, LookupStep(s, t), t)
  {
    RowIds(s); LookupReservedRegistry(s, t); LookupReservedNotes(s, t); LookupReservedIsCalm(s, t);
    LookupReservedGoesOn(s, t);
    CalmIsGood(s, LookupStep(s, t), t);
  }

  lemma LookupIsGood(s: State, t: nat, c: Choice)
    requires OpMay(s, t, c) && s.threads[t].pc.Lookup?
    ensures Good(s, LookupStep(s, t), t)
  {
    var id := s.threads[t].id;
    if id in s.registry && s.registry[id].reserved {
      WithdrawnIsGood(s, t);
    } else {
      LookupIsQuiet(s, t); LookupGoesOn(s, t);
      QuietIsGood(s, LookupStep(s, t), t);
    }
  }

  lemma FinishedIsGood(s: State, t: nat, c: Choice)
    requires OpMay(s, t, c) && s.threads[t].pc.Finish? && !c.fault
    requires s.threads[t].id in s.rows && Live(s.rows[s.threads[t].id])
    ensures Good(s, FinishStep(s, t, c), t)
  {
    FinishRewrites(s, t, c);
    RewriteKeeps(s, FinishStep(s, t, c), t, c, Ended(s.rows[s.threads[t].id], c));
    FinishGoesOn(s, t, c);
  }

  lemma FinishIsGood(s: State, t: nat, c: Choice)
    requires OpMay(s, t, c) && s.threads[t].pc.Finish?
    ensures Good(s, FinishStep(s, t, c), t)
  {
    var id := s.threads[t].id;
    if c.fault || id !in s.rows || !Live(s.rows[id]) {
      FinishRefusedIsQuiet(s, t, c); FinishRefusedGoesOn(s, t, c);
      QuietIsGood(s, FinishStep(s, t, c), t);
    } else {
      FinishedIsGood(s, t, c);
    }
  }

  lemma TakenIsGood(s: State, t: nat)
    requires Global(s) && AtPc(s, t, Take) && s.dmu.None? && Owns(s.registry, s.threads[t].run)
    requires s.threads[t].run.id == s.threads[t].id
    ensures Good(s, TakeStep(s, t), t)
  {
    RowIds(s); TakeRegistry(s, t); TakeNotes(s, t); TakeIsCalm(s, t); TakeGoesOn(s, t);
    CalmIsGood(s, TakeStep(s, t), t);
  }

  lemma TakeIsGood(s: State, t: nat, c: Choice)
    requires OpMay(s, t, c) && s.threads[t].pc.Take?
    ensures Good(s, TakeStep(s, t), t)
  {
    OwnerIsExact(s, s.threads[t].id);
    if Owns(s.registry, s.threads[t].run) {
      TakenIsGood(s, t);
    } else {
      MissedIsGood(s, t);
    }
  }

  lemma MissedIsGood(s: State, t: nat)
    requires Global(s) && AtPc(s, t, Take) && !Owns(s.registry, s.threads[t].run) && s.threads[t].id !in s.registry
    ensures Good(s, TakeStep(s, t), t)
  {
    TakeMissedIsQuiet(s, t); TakeMissedGoesOn(s, t);
    QuietIsGood(s, TakeStep(s, t), t);
  }

  lemma ReleaseIsGood(s: State, t: nat, c: Choice)
    requires OpMay(s, t, c) && s.threads[t].pc.Release?
    ensures Good(s, OpStep(s, t, c), t)
  {
    var changed := s.threads[t].pc.changed;
    RowIds(s); MayRelease(s, t, changed); ReleaseRegistry(s, t);
    ReleaseNotes(s, t, changed); ReleaseIsCalm(s, t, changed);
    ReleaseGoesOn(s, t, changed);
    CalmIsGood(s, OpStep(s, t, c), t);
  }

  lemma EmittingIsGood(s: State, t: nat, c: Choice)
    requires OpMay(s, t, c) && (s.threads[t].pc.Emit? || s.threads[t].pc.EmitStorage?)
    ensures Good(s, OpStep(s, t, c), t)
  {
    var th, s' := s.threads[t], OpStep(s, t, c);
    if th.pc.EmitStorage? {
      EmitStorageIsQuiet(s, t); EmitStorageGoesOn(s, t);
      QuietAnnounces(s, s', t, Event(th.id, t, true));
    } else {
      EmitIsQuiet(s, t, th.pc.changed); EmitGoesOn(s, t, th.pc.changed);
      if th.pc.changed { QuietAnnounces(s, s', t, Event(th.id, t, false)); } else { QuietKeeps(s, s', t); }
    }
  }

  // ---------------------------------------------------------------- one step

  /** A good step of thread `t` keeps the invariant. */
  lemma GoodKeeps(s: State, s': State, t: nat)
    requires Inv(s) && Good(s, s', t)
    ensures Inv(s') && Grows(s, s')
  {
    OthersStay(s, s', t);
  }

  /** And so does one that starts a thread, or is a call that does. */
  lemma ForkedKeeps(s: State, s': State, t: nat)
    requires Inv(s) && Acts(s, s', t) && Global(s') && t <= |s.threads| && |s'.threads| == |s.threads| + 1
    requires ThreadOk(s', t) && ThreadOk(s', |s.threads|)
    ensures Inv(s') && Grows(s, s')
  {
    OthersStay(s, s', t);
    AllThreadsOk(s', t);
  }

  lemma AllThreadsOk(s: State, t: nat)
    requires t < |s.threads| && ThreadOk(s, t) && ThreadOk(s, |s.threads| - 1)
    requires forall u :: 0 <= u < |s.threads| - 1 && u != t ==> ThreadOk(s, u)
    ensures ThreadsOk(s)
  {
  }

  /** The steps of a start. */
  lemma StartIsGood(s: State, t: nat, c: Choice)
    requires OpMay(s, t, c) && BeforeRun(s.threads[t].pc) && !s.threads[t].pc.Spawn?
    ensures Good(s, OpStep(s, t, c), t)
  {
    match s.threads[t].pc {
      case LockFirst => LockingIsGood(s, t, c);
      case LockSecond => LockingIsGood(s, t, c);
      case Create => CreateIsGood(s, t, c);
      case Claim => ClaimIsGood(s, t, c);
      case Append => AppendIsGood(s, t, c);
      case Activate => ActivateIsGood(s, t, c);
      case Withdraw => WithdrawIsGood(s, t, c);
    }
  }

  /** The other steps of an operation. */
  lemma RestIsGood(s: State, t: nat, c: Choice)
    requires OpMay(s, t, c) && !BeforeRun(s.threads[t].pc)
    ensures Good(s, OpStep(s, t, c), t)
  {
    match s.threads[t].pc {
      case Poll => PollIsGood(s, t, c);
      case Load => LoadIsGood(s, t, c);
      case Reload => ReloadIsGood(s, t, c);
      case Tail => TailIsGood(s, t, c);
      case Lookup => LookupIsGood(s, t, c);
      case Finish => FinishIsGood(s, t, c);
      case Take => TakeIsGood(s, t, c);
      case EmitStorage => EmittingIsGood(s, t, c);
      case Emit(_) => EmittingIsGood(s, t, c);
      case Release(_) => ReleaseIsGood(s, t, c);
    }
  }

  lemma OpMoves(s: State, t: nat, c: Choice)
    requires OpMay(s, t, c)
    ensures Inv(OpStep(s, t, c)) && Grows(s, OpStep(s, t, c))
  {
    if s.threads[t].pc.Spawn? {
      SpawnMoves(s, t, c);
    } else {
      if BeforeRun(s.threads[t].pc) { StartIsGood(s, t, c); } else { RestIsGood(s, t, c); }
      GoodKeeps(s, OpStep(s, t, c), t);
    }
  }

  lemma WatcherMoves(s: State, t: nat, c: Choice)
    requires Inv(s) && AtPc(s, t, Spawn) && IsStart(s.threads[t]) && !c.refuse
    ensures Inv(SpawnStep(s, t, c)) && Grows(s, SpawnStep(s, t, c))
  {
    SpawnForks(s, t, c); SpawnGoesOn(s, t, c);
    ForkKeeps(s, SpawnStep(s, t, c), t, Op(Watcher, s.threads[t].id, s.threads[t].run, Poll));
    ForkedKeeps(s, SpawnStep(s, t, c), t);
  }

  lemma RefusalMoves(s: State, t: nat, c: Choice)
    requires Inv(s) && AtPc(s, t, Spawn) && IsStart(s.threads[t]) && c.refuse
    ensures Inv(SpawnStep(s, t, c)) && Grows(s, SpawnStep(s, t, c))
  {
    SpawnRefusedIsQuiet(s, t, c);
    QuietIsGood(s, SpawnStep(s, t, c), t);
    GoodKeeps(s, SpawnStep(s, t, c), t);
  }

  lemma SpawnMoves(s: State, t: nat, c: Choice)
    requires OpMay(s, t, c) && s.threads[t].pc.Spawn?
    ensures Inv(SpawnStep(s, t, c)) && Grows(s, SpawnStep(s, t, c))
  {
    if c.refuse { RefusalMoves(s, t, c); } else { WatcherMoves(s, t, c); }
  }

  ghost predicate SweepMay(s: State, t: nat, c: Choice) {
    Inv(s) && AtSweep(s, t) && SweepEnabled(s, s.threads[t].project, s.threads[t].session, s.threads[t].spc, c)
  }

  lemma SweepCallMoves(s: State, t: nat, c: Choice)
    requires Inv(s) && AtSweep(s, t) && s.threads[t].spc.SNext? && s.threads[t].spc.k < |s.threads[t].todo|
    ensures Inv(SweepStep(s, t, c)) && Grows(s, SweepStep(s, t, c))
  {
    SweepCallForks(s, t, c);
    SweepCallGoesOn(s, t, c);
    ForkKeeps(s, SweepStep(s, t, c), t, Cancelling(s, s.threads[t].todo[s.threads[t].spc.k]));
    ForkedKeeps(s, SweepStep(s, t, c), t);
  }

  lemma DeleteMoves(s: State, t: nat, c: Choice)
    requires SweepMay(s, t, c) && Deleting(s, t, c)
    ensures Inv(SweepStep(s, t, c)) && Grows(s, SweepStep(s, t, c))
  {
    DeleteRest(s, t, c); DeleteUntouched(s, t, c); DeleteHistory(s, t, c); DeleteActs(s, t, c);
    GoodKeeps(s, SweepStep(s, t, c), t);
  }

  lemma SweepIsSilent(s: State, t: nat, c: Choice)
    requires t < |s.threads| && s.threads[t].Sweep?
    ensures SweepStep(s, t, c).events == s.events
  {
  }

  lemma SweepIsQuiet(s: State, t: nat, c: Choice)
    requires SweepMay(s, t, c)
    requires s.threads[t].spc.SNext? ==>
               s.threads[t].spc.k >= |s.threads[t].todo| && (!s.threads[t].what.DeleteChat? || c.refuse)
    ensures QuietlyOk(s, SweepStep(s, t, c), t)
  {
    var th := s.threads[t];
    if th.spc.SLock? {
      SweepLockIsQuiet(s, t, c);
    } else if th.spc.SSnapshot? {
      SnapshotLists(s, th.project, th.session, c.ids);
      SweepSnapshotIsQuiet(s, t, c);
    } else if th.spc.SNext? {
      SweepEndIsQuiet(s, t, c);
    } else {
      SweepWaitIsQuiet(s, t, c);
    }
  }

  lemma SweepMoves(s: State, t: nat, c: Choice)
    requires SweepMay(s, t, c)
    ensures Inv(SweepStep(s, t, c)) && Grows(s, SweepStep(s, t, c))
  {
    var th := s.threads[t];
    if th.spc.SNext? && th.spc.k < |th.todo| {
      SweepCallMoves(s, t, c);
    } else if th.spc.SNext? && th.what.DeleteChat? && !c.refuse {
      DeleteMoves(s, t, c);
    } else {
      SweepIsQuiet(s, t, c);
      SweepIsSilent(s, t, c);
      QuietIsGood(s, SweepStep(s, t, c), t);
      GoodKeeps(s, SweepStep(s, t, c), t);
    }
  }

  ghost predicate BatchMay(s: State, t: nat, c: Choice) {
    Inv(s) && AtBatch(s, t) && BatchEnabled(s, s.threads[t].targets, s.threads[t].bpc, c)
  }

  lemma RefusedReserveMoves(s: State, t: nat, c: Choice)
    requires BatchMay(s, t, c) && s.threads[t].bpc.BReserve? && (c.refuse ||
             !MayReserve(s.registry, s.threads[t].targets))
    ensures Inv(BatchStep(s, t, c)) && Grows(s, BatchStep(s, t, c))
  {
    ReserveRefusedIsQuiet(s, t, c);
    QuietIsGood(s, BatchStep(s, t, c), t);
    GoodKeeps(s, BatchStep(s, t, c), t);
  }

  lemma ReserveIsGood(s: State, t: nat, c: Choice)
    requires Global(s) && Reserving(s, t, c)
    ensures Good(s, ReserveStep(s, t, c), t)
  {
    ReserveSlots(s, t, c); ReserveRegistry(s, t, c); ReserveOthers(s, t, c); ReserveHistory(s, t, c);
    ReserveLocks(s, t, c);
    ReserveGrows(s, t, c); ReserveActs(s, t, c); ReserveGoesOn(s, t, c);
  }

  lemma ReserveMoves(s: State, t: nat, c: Choice)
    requires BatchMay(s, t, c) && s.threads[t].bpc.BReserve?
    ensures Inv(BatchStep(s, t, c)) && Grows(s, BatchStep(s, t, c))
  {
    if c.refuse || !MayReserve(s.registry, s.threads[t].targets) {
      RefusedReserveMoves(s, t, c);
    } else {
      ReserveIsGood(s, t, c);
      GoodKeeps(s, BatchStep(s, t, c), t);
    }
  }

  lemma LaunchMoves(s: State, t: nat, c: Choice)
    requires BatchMay(s, t, c) && s.threads[t].bpc.BStart? && s.threads[t].bpc.i < |s.threads[t].reqs|
    ensures Inv(BatchStep(s, t, c)) && Grows(s, BatchStep(s, t, c))
  {
    var req := s.threads[t].reqs[s.threads[t].bpc.i];
    LaunchForks(s, t);
    LaunchGoesOn(s, t);
    ForkKeeps(s, BatchStep(s, t, c), t, Op(Starter(req, false), req.id, NO_RUN, LockFirst));
    ForkedKeeps(s, BatchStep(s, t, c), t);
  }

  lemma UndoMoves(s: State, t: nat, c: Choice)
    requires BatchMay(s, t, c) && s.threads[t].bpc.BUndo? && s.threads[t].bpc.k < s.threads[t].bpc.i
    ensures Inv(BatchStep(s, t, c)) && Grows(s, BatchStep(s, t, c))
  {
    UndoForks(s, t, c);
    UndoGoesOn(s, t, c);
    UndoCancels(s, t, c);
    ForkKeeps(s, BatchStep(s, t, c), t, Cancelling(s, s.threads[t].reqs[s.threads[t].bpc.k].id));
    ForkedKeeps(s, BatchStep(s, t, c), t);
  }

  lemma CleanMoves(s: State, t: nat, c: Choice)
    requires BatchMay(s, t, c) && s.threads[t].bpc.BClean? && s.threads[t].bpc.k < |s.threads[t].reqs|
    ensures Inv(BatchStep(s, t, c)) && Grows(s, BatchStep(s, t, c))
  {
    CleanRegistry(s, t, c); CleanNotes(s, t, c); CleanIsCalm(s, t, c); CleanGoesOn(s, t, c);
    CalmIsGood(s, BatchStep(s, t, c), t);
    GoodKeeps(s, BatchStep(s, t, c), t);
  }

  lemma BatchQuietMoves(s: State, t: nat, c: Choice)
    requires BatchMay(s, t, c)
    requires var th := s.threads[t];
             th.bpc.BWait? || th.bpc.BUndoWait? || (th.bpc.BStart? && th.bpc.i >= |th.reqs|) ||
             (th.bpc.BUndo? && th.bpc.k >= th.bpc.i) || (th.bpc.BClean? && th.bpc.k >= |th.reqs|)
    ensures Inv(BatchStep(s, t, c)) && Grows(s, BatchStep(s, t, c))
  {
    var th := s.threads[t];
    BatchPlain(s, t, BatchStep(s, t, c).threads[t].bpc);
    if th.bpc.BWait? { BatchWaitGoesOn(s, t, c); }
    else if th.bpc.BUndoWait? { BatchUndoWaitGoesOn(s, t, c); }
    else { BatchGoesOn(s, t, c); }
    QuietIsGood(s, BatchStep(s, t, c), t);
    GoodKeeps(s, BatchStep(s, t, c), t);
  }

  lemma BatchMoves(s: State, t: nat, c: Choice)
    requires BatchMay(s, t, c)
    ensures Inv(BatchStep(s, t, c)) && Grows(s, BatchStep(s, t, c))
  {
    var th := s.threads[t];
    if th.bpc.BReserve? {
      ReserveMoves(s, t, c);
    } else if th.bpc.BStart? && th.bpc.i < |th.reqs| {
      LaunchMoves(s, t, c);
    } else if th.bpc.BUndo? && th.bpc.k < th.bpc.i {
      UndoMoves(s, t, c);
    } else if th.bpc.BClean? && th.bpc.k < |th.reqs| {
      CleanMoves(s, t, c);
    } else {
      BatchQuietMoves(s, t, c);
    }
  }

  /** A call from outside starts one thread. */
  lemma CallMoves(s: State, s': State, born: Thread)
    requires Inv(s) && Forks(s, s', |s.threads|, born) && ThreadOk(s', |s.threads|)
    ensures Inv(s') && Grows(s, s')
  {
    ForkKeeps(s, s', |s.threads|, born);
    ForkedKeeps(s, s', |s.threads|);
  }

  lemma StartForks(s: State, req: Req)
    requires HistoryOk(s) && RegistryOk(s) && Can(s, StartRun(req))
    ensures var s', born := Next(s, StartRun(req)), Op(Starter(req, false), req.id, NO_RUN, LockFirst);
            Forks(s, s', |s.threads|, born) && ThreadOk(s', |s.threads|)
  {
  }

  lemma StartMoves(s: State, req: Req)
    requires Inv(s) && Can(s, StartRun(req))
    ensures Inv(Next(s, StartRun(req))) && Grows(s, Next(s, StartRun(req)))
  {
    StartForks(s, req);
    CallMoves(s, Next(s, StartRun(req)), Op(Starter(req, false), req.id, NO_RUN, LockFirst));
  }

  lemma CancelMoves(s: State, id: string)
    requires Inv(s)
    ensures Inv(Next(s, CancelRun(id))) && Grows(s, Next(s, CancelRun(id)))
  {
    CallMoves(s, Next(s, CancelRun(id)), Cancelling(s, id));
  }

  lemma BatchCalls(s: State, step: Step)
    requires Inv(s) && Can(s, step) && step.StartBatch?
    ensures Inv(Next(s, step)) && Grows(s, Next(s, step))
  {
    CallMoves(s, Next(s, step), Batch(step.from, step.fromSession, step.batch, step.targets, [], BReserve));
  }

  lemma SweepCalls(s: State, step: Step)
    requires Inv(s) && Can(s, step) && step.SweepChat?
    ensures Inv(Next(s, step)) && Grows(s, Next(s, step))
  {
    CallMoves(s, Next(s, step), Sweep(step.what, step.project, step.session, [], {}, SLock));
  }

  /** A step from outside that opens a chat or begins the shutdown. */
  ghost predicate Outside(s: State, s': State) {
    s'.threads == s.threads && s'.registry == s.registry && s'.rows == s.rows && s'.meta == s.meta &&
    s'.dmu == s.dmu && s'.events == s.events && (s.shutdown ==> s'.shutdown) &&
    s'.h == s.h.(chats := s'.h.chats) && s.h.chats <= s'.h.chats &&
    s.sessions <= s'.sessions && s'.sessions <= s'.h.chats && s'.sessions - s.sessions !! s.h.chats
  }

  lemma OutsideLocks(s: State, s': State)
    requires Outside(s, s') && LocksOk(s) && StartersApart(s)
    ensures LocksOk(s') && StartersApart(s') && SamePublishing(s, s')
  {
  }

  lemma OutsideHistory(s: State, s': State)
    requires Outside(s, s') && SamePublishing(s, s') && HistoryOk(s)
    ensures HistoryOk(s')
  {
  }

  lemma OutsideRest(s: State, s': State)
    requires Outside(s, s') && SamePublishing(s, s') && RegistryOk(s) && RowsOk(s) && OwnedOk(s)
    ensures RegistryOk(s') && RowsOk(s') && OwnedOk(s')
  {
  }

  lemma OutsideKeeps(s: State, s': State)
    requires Global(s) && Outside(s, s')
    ensures Global(s') && Acts(s, s', |s.threads|)
  {
    OutsideLocks(s, s');
    OutsideHistory(s, s');
    OutsideRest(s, s');
    EventsFrame(s, s');
    DeletedFrame(s, s');
    OutsideActs(s, s');
  }

  lemma ChatMoves(s: State, step: Step)
    requires Inv(s) && Can(s, step) && (step.NewChat? || step.ShutDown?)
    ensures Inv(Next(s, step)) && Grows(s, Next(s, step))
  {
    var s' := Next(s, step);
    OutsideIs(s, step);
    OutsideKeeps(s, s');
    OthersStay(s, s', |s.threads|);
  }

  lemma OutsideIs(s: State, step: Step)
    requires s.sessions <= s.h.chats && Can(s, step) && (step.NewChat? || step.ShutDown?)
    ensures Outside(s, Next(s, step))
  {
  }

  lemma OutsideActs(s: State, s': State)
    requires Outside(s, s')
    ensures Acts(s, s', |s.threads|)
  {
  }

  /** Every step of every thread keeps the invariant, and nothing that has ended is
      revived or rewritten. */
  lemma StepKeeps(s: State, step: Step)
    requires Inv(s) && Can(s, step)
    ensures Inv(Next(s, step)) && Grows(s, Next(s, step))
  {
    match step {
      case Move(t, c) =>
        assert ThreadOk(s, t);
        match s.threads[t] {
          case Op(_, _, _, _) => OpMoves(s, t, c);
          case Sweep(_, _, _, _, _, _) => SweepMoves(s, t, c);
          case Batch(_, _, _, _, _, _) => BatchMoves(s, t, c);
        }
      case StartRun(req) => StartMoves(s, req);
      case StartBatch(_, _, _, _) => BatchCalls(s, step);
      case CancelRun(id) => CancelMoves(s, id);
      case SweepChat(_, _, _) => SweepCalls(s, step);
      case NewChat(_) => ChatMoves(s, step);
      case ShutDown => ChatMoves(s, step);
    }
  }

  lemma StartIsOk()
    ensures Inv(START)
  {
  }

  lemma HistoryGrowsOn(a: History, b: History, c: History)
    requires GrowsHistory(a, b) && GrowsHistory(b, c)
    ensures GrowsHistory(a, c)
  {
  }

  lemma GrowsTransitive(a: State, b: State, c: State)
    requires Inv(a) && Grows(a, b) && Grows(b, c)
    ensures Grows(a, c)
  {
    HistoryGrowsOn(a.h, b.h, c.h);
  }

  /** The invariant holds after every run, and every run only adds to what has
      happened. */
  lemma {:induction false} RunKeeps(s: State, steps: seq<Step>)
    requires Inv(s) && Feasible(s, steps)
    ensures Inv(After(s, steps)) && Grows(s, After(s, steps))
    decreases |steps|
  {
    if steps != [] {
      StepKeeps(s, steps[0]);
      RunKeeps(Next(s, steps[0]), steps[1..]);
      GrowsTransitive(s, Next(s, steps[0]), After(s, steps));
    }
  }
}
