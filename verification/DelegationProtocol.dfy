/** The delegation protocol as a state machine: startDelegation, the batch, the
    monitor, cancellation, and deletion, clearing or stopping of a chat, as threads
    that interleave at their critical sections. One step is one section under
    delegationMu, the store lock, or the topology locks; publication spans several
    store sections, so delegationMu is part of the state.

    Disk faults, retention, shutdown, refusals by policy or budget, and the child's
    answers are free choices of a step. */
module DelegationProtocol {
  import opened DelegationRuns
  import opened DelegationStore
  import opened DelegationRegistry
  import Text
  import opened Wrappers

  type Chat = (string, string)   // project and chat ID

  // ------------------------------------------------------------------ threads

  datatype Req = Req(id: string, batch: string, from: string, fromSession: string, to: string, reserved: bool)

  datatype Kind =
    | Starter(req: Req, busy: bool)       // startDelegation; busy: the child queue refused
    | Watcher                             // monitorDelegationRun
    | Canceller(live: bool, known: bool, drawn: bool)  // cancelDelegationRun; known, drawn: the run was
                                                       // live, its ID existed, when it was called

  datatype Pc =
    | LockFirst | LockSecond | Create | Claim | Append | Activate | Withdraw | Spawn // start
    | Poll | Load | Tail | Reload                                                 // monitor
    | Lookup                                                                      // cancel
    | Finish | Take | EmitStorage | Release(changed: bool) | Emit(changed: bool)     // all three
    | Done(ok: bool)

  datatype SweepKind = DeleteChat | ClearChat | StopChat

  datatype SweepPc = SLock | SSnapshot | SNext(k: nat) | SWait(k: nat, child: nat) | SDone(ok: bool)

  datatype BatchPc =
    | BReserve | BStart(i: nat) | BWait(i: nat, child: nat)
    | BUndo(i: nat, k: nat) | BUndoWait(i: nat, k: nat, child: nat)
    | BClean(i: nat, k: nat, ok: bool) | BDone(i: nat, ok: bool)

  datatype Thread =
    | Op(kind: Kind, id: string, run: Run, pc: Pc)
    | Sweep(what: SweepKind, project: string, session: string, todo: seq<string>,
            before: set<string>, spc: SweepPc)   // before: the run IDs there were at its snapshot
    | Batch(from: string, fromSession: string, batch: string, targets: seq<string>, reqs: seq<Req>, bpc: BatchPc)

  // -------------------------------------------------------------------- state

  datatype Event = Event(id: string, author: nat, storage: bool)

  /** What happened so far; no step's outcome depends on it, apart from run and
      chat IDs being new. */
  datatype History = History(
    drawnBy: map<string, nat>,    // run IDs and the thread that drew them
    chats: set<Chat>,             // every chat there ever was
    launched: set<string>,        // runs whose start began
    ident: map<string, Run>,      // runs whose row was written, as written
    activated: set<string>,       // runs that got a live owner
    refused: set<string>,         // starts that ended before publication
    withdrawn: set<string>,       // reservations removed by a cancellation
    winner: map<string, nat>,     // who moved the row to a terminal status
    taken: map<string, nat>,      // who took the owner after a store error
    faulted: set<string>,         // runs for which the disk failed
    ousted: set<string>,          // runs whose row was evicted while an entry was registered
    deleted: set<Chat>)           // chats deleted successfully

  datatype State = State(
    registry: Registry, rows: map<string, Run>, sessions: set<Chat>,
    meta: map<string, nat>, dmu: Option<nat>, shutdown: bool,
    threads: seq<Thread>, events: seq<Event>, h: History)

  const START := State(map[], map[], {}, map[], None, false, [], [],
                       History(map[], {}, {}, map[], {}, {}, {}, map[], map[], {}, {}, {}))

  // The free choices of one step.
  datatype Choice = Choice(
    fault: bool, refuse: bool, name: string, ids: seq<string>, now: int,
    evict: set<string>, status: Status, errorType: string, error: string, detail: Detail, next: Pc)

  function RunOf(req: Req, child: string, now: int): Run {
    Run(req.id, req.batch, req.from, req.fromSession, req.to, child, Running, "", "",
        Detail("", [], [], false), now, 0)
  }

  function HandleOf(run: Run): Handle {
    Handle(run.from, run.fromSession, run.to, run.toSession, run.batch, run, false)
  }

  lemma OwnerOfItsRow(run: Run, row: Run)
    requires SameRun(row, run)
    ensures SameOwner(HandleOf(run), row)
  {
  }

  function Put(s: State, t: nat, th: Thread): State
    requires t < |s.threads|
  {
    s.(threads := s.threads[t := th])
  }

  /** The metadata locks a start holds: one after LockFirst, both until its start
      is published (or, if the queue refused, until its owner is released). */
  predicate HoldsBoth(th: Thread) {
    th.Op? && th.kind.Starter? &&
    (th.pc in {Create, Claim, Append, Activate, Withdraw} || (th.kind.busy && (th.pc.Finish? || th.pc.Release?)))
  }

  function FirstLock(req: Req): string { if Text.Less(req.to, req.from) then req.to else req.from }
  function SecondLock(req: Req): string { if Text.Less(req.to, req.from) then req.from else req.to }

  predicate Holds(th: Thread, project: string) {
    match th
    case Op(kind, _, _, pc) =>
      kind.Starter? &&
      ((HoldsBoth(th) && (project == kind.req.from || project == kind.req.to)) ||
       (pc.LockSecond? && project == FirstLock(kind.req)))
    case Sweep(_, p, _, _, _, spc) => project == p && (spc.SSnapshot? || spc.SNext? || spc.SWait?)
    case Batch(_, _, _, _, _, _) => false
  }

  predicate HoldsOwners(th: Thread) { th.Op? && (th.pc.Append? || th.pc.Activate?) }

  /** Retention may drop any terminal rows. */
  ghost predicate MayEvict(rows: map<string, Run>, evict: set<string>) {
    forall id :: id in evict ==> id in rows && !Live(rows[id])
  }

  /** Runs that retention takes the row from although somebody may still look for it. */
  function Ousted(s: State, c: Choice): set<string> { s.h.ousted + c.evict * s.registry.Keys }

  // -------------------------------------------------------------- start steps

  predicate IsStarter(s: State, t: nat, pc: Pc) {
    t < |s.threads| && s.threads[t].Op? && s.threads[t].kind.Starter? && s.threads[t].pc == pc
  }

  ghost predicate Enabled(s: State, t: nat, c: Choice) {
    t < |s.threads| &&
    match s.threads[t]
    case Op(kind, id, run, pc) => OpEnabled(s, kind, id, run, pc, c)
    case Sweep(_, project, session, _, _, spc) => SweepEnabled(s, project, session, spc, c)
    case Batch(_, _, _, targets, _, bpc) => BatchEnabled(s, targets, bpc, c)
  }

  ghost predicate OpEnabled(s: State, kind: Kind, id: string, run: Run, pc: Pc, c: Choice) {
    match pc
    case LockFirst => kind.Starter? && FirstLock(kind.req) !in s.meta
    case LockSecond => kind.Starter? && SecondLock(kind.req) !in s.meta
    case Create => kind.Starter? && (kind.req.to, c.name) !in s.h.chats && c.name != ""
    case Claim => kind.Starter? && s.dmu.None?
    case Append => kind.Starter? &&
        (c.fault || (id !in s.rows && (forall x :: x in s.rows && Live(s.rows[x]) ==> s.rows[x].to != run.to) &&
                     MayEvict(s.rows[id := run], c.evict)))
    case Activate => kind.Starter?
    case Withdraw => kind.Starter? && s.dmu.None?
    case Spawn => kind.Starter? && (c.refuse ==> s.shutdown)
    case Poll => kind.Watcher? && s.dmu.None? && (c.refuse ==> s.shutdown)
    case Load => kind.Watcher? && (c.next == Finish || c.next == Tail || c.next == Poll)
    case Tail => kind.Watcher? && (c.fault || id !in s.rows || MayEvict(s.rows, c.evict))
    case Reload => kind.Watcher?
    case Lookup => kind.Canceller? && s.dmu.None?
    case Finish => Terminal(c.status) &&
        (c.fault || id !in s.rows || MayEvict(s.rows[id := Ended(s.rows[id], c)], c.evict))
    case Take => s.dmu.None?
    case EmitStorage => true
    case Release(_) => s.dmu.None?
    case Emit(_) => true
    case Done(_) => false
  }

  function Ended(row: Run, c: Choice): Run {
    row.(status := c.status, completedAt := c.now, detail := c.detail,
         errorType := if c.errorType != "" then c.errorType else row.errorType,
         error := if c.error != "" then c.error else row.error)
  }

  /** Where an operation goes once its finish was refused or written. */
  function AfterFinish(kind: Kind, changed: bool): Pc {
    match kind
    case Starter(_, _) => Release(changed)
    case Watcher => if changed then Emit(true) else Release(false)
    case Canceller(live, _, _) => if live then Release(changed) else Emit(changed)
  }

  /** Where it goes once the owner was taken (or found gone) after a store error. */
  function AfterTake(kind: Kind): Pc { if kind.Watcher? then Release(false) else Done(false) }

  function AfterFault(kind: Kind): Pc { if kind.Canceller? && !kind.live then Done(false) else Take }

  function Unlocked(meta: map<string, nat>, req: Req): map<string, nat> { meta - {req.from, req.to} }

  function LockStep(s: State, t: nat, project: string, pc: Pc): State
    requires t < |s.threads| && s.threads[t].Op?
  {
    Put(s, t, s.threads[t].(pc := pc)).(meta := s.meta[project := t])
  }

  function CreateStep(s: State, t: nat, c: Choice): State
    requires t < |s.threads| && s.threads[t].Op? && s.threads[t].kind.Starter?
  {
    var th := s.threads[t];
    var req := th.kind.req;
    if c.refuse || (req.from, req.fromSession) !in s.sessions then
      Put(s, t, th.(pc := Done(false)))
        .(meta := Unlocked(s.meta, req), h := s.h.(refused := s.h.refused + {th.id}))
    else
      Put(s, t, th.(run := RunOf(req, c.name, c.now), pc := Claim))
        .(sessions := s.sessions + {(req.to, c.name)}, h := s.h.(chats := s.h.chats + {(req.to, c.name)}))
  }

  /** The claim is admitted, or the batch's reservation is still there. */
  ghost predicate MayPublish(s: State, req: Req, run: Run) {
    MayOwn(s.registry, run, HandleOf(run), req.reserved)
  }

  function ClaimStep(s: State, t: nat, ok: bool): State
    requires t < |s.threads| && s.threads[t].Op? && s.threads[t].kind.Starter?
  {
    var th := s.threads[t];
    if !ok then Put(s, t, th.(pc := Withdraw))
    else
      Put(s, t, th.(pc := Append))
        .(dmu := Some(t),
          registry := if th.kind.req.reserved then s.registry else s.registry[th.id := HandleOf(th.run)])
  }

  function AppendStep(s: State, t: nat, c: Choice): State
    requires t < |s.threads| && s.threads[t].Op? && s.threads[t].kind.Starter?
  {
    var th := s.threads[t];
    if c.fault then
      Put(s, t, th.(pc := Withdraw))
        .(dmu := None, registry := if th.kind.req.reserved then s.registry else s.registry - {th.id})
    else
      Put(s, t, th.(pc := Activate))
        .(rows := s.rows[th.id := th.run] - c.evict,
          h := s.h.(ident := s.h.ident[th.id := th.run], ousted := Ousted(s, c)))
  }

  function ActivateStep(s: State, t: nat, c: Choice): State
    requires t < |s.threads| && s.threads[t].Op? && s.threads[t].kind.Starter?
  {
    var th := s.threads[t];
    var s1 := s.(dmu := None, registry := s.registry[th.id := HandleOf(th.run)],
                 h := s.h.(activated := s.h.activated + {th.id}));
    if c.refuse then
      Put(s1, t, th.(kind := th.kind.(busy := true), pc := Finish))
        .(sessions := s.sessions - {(th.run.to, th.run.toSession)})
    else Put(s1, t, th.(pc := Spawn)).(meta := Unlocked(s.meta, th.kind.req))
  }

  function WithdrawStep(s: State, t: nat): State
    requires t < |s.threads| && s.threads[t].Op? && s.threads[t].kind.Starter?
  {
    var th := s.threads[t];
    Put(s, t, th.(pc := Done(false)))
      .(registry := if th.id in s.registry && s.registry[th.id].reserved then s.registry - {th.id} else s.registry,
        sessions := s.sessions - {(th.run.to, th.run.toSession)},
        meta := Unlocked(s.meta, th.kind.req), h := s.h.(refused := s.h.refused + {th.id}))
  }

  function SpawnStep(s: State, t: nat, c: Choice): State
    requires t < |s.threads| && s.threads[t].Op?
  {
    var th := s.threads[t];
    if c.refuse then Put(s, t, th.(pc := Finish))
    else
      s.(threads := s.threads[t := th.(pc := Done(true))] + [Op(Watcher, th.id, th.run, Poll)])
  }

  // ------------------------------------------------------------ monitor steps

  function PollStep(s: State, t: nat, c: Choice): State
    requires t < |s.threads| && s.threads[t].Op?
  {
    var th := s.threads[t];
    Put(s, t, th.(pc := if c.refuse || !Owns(s.registry, th.run) then Release(false) else Load))
  }

  function LoadStep(s: State, t: nat, c: Choice): State
    requires t < |s.threads| && s.threads[t].Op?
  {
    var th := s.threads[t];
    if c.fault then Put(s, t, th.(pc := Take)).(h := s.h.(faulted := s.h.faulted + {th.id}))
    else if th.id !in s.rows then Put(s, t, th.(pc := Take))
    else if !Live(s.rows[th.id]) then Put(s, t, th.(pc := Release(false)))
    else Put(s, t, th.(pc := c.next))
  }

  function TailStep(s: State, t: nat, c: Choice): State
    requires t < |s.threads| && s.threads[t].Op?
  {
    var th := s.threads[t];
    if c.fault then Put(s, t, th.(pc := Take)).(h := s.h.(faulted := s.h.faulted + {th.id}))
    else if th.id in s.rows && Live(s.rows[th.id]) then
      Put(s, t, th.(pc := Poll))
        .(rows := s.rows[th.id := s.rows[th.id].(detail := c.detail)] - c.evict, h := s.h.(ousted := Ousted(s, c)))
    else Put(s, t, th.(pc := Reload))
  }

  function ReloadStep(s: State, t: nat, c: Choice): State
    requires t < |s.threads| && s.threads[t].Op?
  {
    var th := s.threads[t];
    if c.fault then Put(s, t, th.(pc := Take)).(h := s.h.(faulted := s.h.faulted + {th.id}))
    else if th.id in s.rows && !Live(s.rows[th.id]) then Put(s, t, th.(pc := Release(false)))
    else Put(s, t, th.(pc := Take))
  }

  // --------------------------------------------------------------- cancelling

  /** A cancellation of the run, not yet begun. */
  function Cancelling(s: State, id: string): Thread {
    Op(Canceller(false, id in s.h.activated, id in s.h.drawnBy), id, NO_RUN, Lookup)
  }

  function LookupStep(s: State, t: nat): State
    requires t < |s.threads| && s.threads[t].Op? && s.threads[t].kind.Canceller?
  {
    var th := s.threads[t];
    if th.id in s.registry && s.registry[th.id].reserved then
      Put(s, t, th.(pc := Done(false)))
        .(registry := s.registry - {th.id}, h := s.h.(withdrawn := s.h.withdrawn + {th.id}))
    else if th.id in s.registry then
      Put(s, t, th.(kind := th.kind.(live := true), run := s.registry[th.id].run, pc := Finish))
    else Put(s, t, th.(pc := Finish))
  }

  // --------------------------------------------- ending a run, in all three

  function FinishStep(s: State, t: nat, c: Choice): State
    requires t < |s.threads| && s.threads[t].Op?
  {
    var th := s.threads[t];
    var kind := th.kind;
    if c.fault || th.id !in s.rows then
      Put(s, t, th.(pc := AfterFault(kind)))
        .(meta := if HoldsBoth(th) then Unlocked(s.meta, kind.req) else s.meta,
          h := if c.fault then s.h.(faulted := s.h.faulted + {th.id}) else s.h)
    else if !Live(s.rows[th.id]) then Put(s, t, th.(pc := AfterFinish(kind, false)))
    else
      Put(s, t, th.(pc := AfterFinish(kind, true)))
        .(rows := s.rows[th.id := Ended(s.rows[th.id], c)] - c.evict,
          h := s.h.(winner := s.h.winner[th.id := t], ousted := Ousted(s, c)))
  }

  function TakeStep(s: State, t: nat): State
    requires t < |s.threads| && s.threads[t].Op?
  {
    var th := s.threads[t];
    if Owns(s.registry, th.run) then
      Put(s, t, th.(pc := EmitStorage))
        .(registry := s.registry - {th.run.id}, h := s.h.(taken := s.h.taken[th.id := t]))
    else Put(s, t, th.(pc := AfterTake(th.kind)))
  }

  function EmitStorageStep(s: State, t: nat): State
    requires t < |s.threads| && s.threads[t].Op?
  {
    var th := s.threads[t];
    Put(s, t, th.(pc := AfterTake(th.kind))).(events := s.events + [Event(th.id, t, true)])
  }

  /** A cancellation releases by run ID, the others only their exact owner. */
  function ReleaseStep(s: State, t: nat): State
    requires t < |s.threads| && s.threads[t].Op? && s.threads[t].pc.Release?
  {
    var th := s.threads[t];
    var gone := th.kind.Canceller? || Owns(s.registry, th.run);
    Put(s, t, th.(pc := if th.kind.Watcher? then Done(true) else Emit(th.pc.changed)))
      .(registry := if gone then s.registry - {th.id} else s.registry,
        meta := if HoldsBoth(th) then Unlocked(s.meta, th.kind.req) else s.meta)
  }

  function EmitStep(s: State, t: nat): State
    requires t < |s.threads| && s.threads[t].Op? && s.threads[t].pc.Emit?
  {
    var th := s.threads[t];
    Put(s, t, th.(pc := if th.kind.Watcher? then Release(false) else Done(false)))
      .(events := if th.pc.changed then s.events + [Event(th.id, t, false)] else s.events)
  }

  // --------------------------------------------- deleting, clearing, stopping

  ghost function Touching(s: State, project: string, session: string): set<string> {
    set id | id in s.registry && Touches(s.registry[id], project, session)
  }

  ghost predicate SweepEnabled(s: State, project: string, session: string, spc: SweepPc, c: Choice) {
    match spc
    case SLock => project !in s.meta
    case SSnapshot => s.dmu.None? && (set id | id in c.ids) == Touching(s, project, session)
    case SNext(_) => true
    case SWait(_, child) => child < |s.threads| && s.threads[child].Op? && s.threads[child].pc.Done?
    case SDone(_) => false
  }

  function SweepStep(s: State, t: nat, c: Choice): State
    requires t < |s.threads| && s.threads[t].Sweep?
  {
    var th := s.threads[t];
    match th.spc
    case SLock => Put(s, t, th.(spc := SSnapshot)).(meta := s.meta[th.project := t])
    case SSnapshot =>
      if th.what.DeleteChat? && (c.refuse || (th.project, th.session) !in s.sessions) then
        Put(s, t, th.(spc := SDone(false))).(meta := s.meta - {th.project})
      else Put(s, t, th.(todo := c.ids, before := s.h.drawnBy.Keys, spc := SNext(0)))
    case SNext(k) =>
      if k < |th.todo| then
        s.(threads := s.threads[t := th.(spc := SWait(k, |s.threads|))] +
                      [Cancelling(s, th.todo[k])])
      else if th.what.DeleteChat? && !c.refuse then
        Put(s, t, th.(spc := SDone(true)))
          .(meta := s.meta - {th.project}, sessions := s.sessions - {(th.project, th.session)},
            h := s.h.(deleted := s.h.deleted + {(th.project, th.session)}))
      else Put(s, t, th.(spc := SDone(!c.refuse))).(meta := s.meta - {th.project})
    case SWait(k, _) => Put(s, t, th.(spc := SNext(k + 1)))
    case SDone(_) => s
  }

  // -------------------------------------------------------------------- batch

  ghost predicate BatchEnabled(s: State, targets: seq<string>, bpc: BatchPc, c: Choice) {
    match bpc
    case BReserve => s.dmu.None? && |c.ids| == |targets| && FreshIds(s.registry, c.ids) &&
        forall i :: 0 <= i < |c.ids| ==> c.ids[i] !in s.h.drawnBy
    case BStart(_) => true
    case BWait(_, child) => child < |s.threads| && s.threads[child].Op? && s.threads[child].pc.Done?
    case BUndo(_, _) => true
    case BUndoWait(_, _, child) => child < |s.threads| && s.threads[child].Op? && s.threads[child].pc.Done?
    case BClean(_, _, _) => s.dmu.None?
    case BDone(_, _) => false
  }

  function Members(th: Thread, ids: seq<string>): seq<Req>
    requires th.Batch? && |ids| == |th.targets|
  {
    seq(|ids|, i requires 0 <= i < |ids| => Req(ids[i], th.batch, th.from, th.fromSession, th.targets[i], true))
  }

  ghost function ReserveStep(s: State, t: nat, c: Choice): State
    requires t < |s.threads| && s.threads[t].Batch? && |c.ids| == |s.threads[t].targets|
  {
    var th := s.threads[t];
    if c.refuse || !MayReserve(s.registry, th.targets) then Put(s, t, th.(bpc := BDone(0, false)))
    else
      Put(s, t, th.(reqs := Members(th, c.ids), bpc := BStart(0)))
        .(registry := WithSlots(s.registry, th.from, th.fromSession, th.batch, th.targets, c.ids),
          h := s.h.(drawnBy := s.h.drawnBy + map id | id in c.ids :: t))
  }

  function LaunchMember(s: State, t: nat, i: nat): State
    requires t < |s.threads| && s.threads[t].Batch? && i < |s.threads[t].reqs|
  {
    var th := s.threads[t];
    var req := th.reqs[i];
    s.(threads := s.threads[t := th.(bpc := BWait(i, |s.threads|))] +
                  [Op(Starter(req, false), req.id, NO_RUN, LockFirst)],
       h := s.h.(launched := s.h.launched + {req.id}))
  }

  ghost function BatchStep(s: State, t: nat, c: Choice): State
    requires t < |s.threads| && s.threads[t].Batch?
    requires BatchEnabled(s, s.threads[t].targets, s.threads[t].bpc, c)
  {
    var th := s.threads[t];
    var n := |th.reqs|;
    match th.bpc
    case BReserve => ReserveStep(s, t, c)
    case BStart(i) =>
      if i < n then LaunchMember(s, t, i) else Put(s, t, th.(bpc := BClean(i, 0, true)))
    case BWait(i, child) =>
      Put(s, t, th.(bpc := if s.threads[child].pc.ok then BStart(i + 1) else BUndo(i, 0)))
    case BUndo(i, k) =>
      if k < i && k < n then
        s.(threads := s.threads[t := th.(bpc := BUndoWait(i, k, |s.threads|))] +
                      [Cancelling(s, th.reqs[k].id)])
      else Put(s, t, th.(bpc := BClean(i, 0, false)))
    case BUndoWait(i, k, child) => Put(s, t, th.(bpc := BUndo(i, k + 1)))
    case BClean(i, k, ok) =>
      if k < n then
        Put(s, t, th.(bpc := BClean(i, k + 1, ok)))
          .(registry := if th.reqs[k].id in s.registry && s.registry[th.reqs[k].id].reserved
                        then s.registry - {th.reqs[k].id} else s.registry)
      else Put(s, t, th.(bpc := BDone(i, ok)))
    case BDone(_, _) => s
  }

  // ---------------------------------------------------------------- all steps

  datatype Step =
    | Move(t: nat, c: Choice)
    | StartRun(req: Req)                  // StartDelegation
    | StartBatch(from: string, fromSession: string, batch: string, targets: seq<string>)
    | CancelRun(id: string)               // CancelDelegationRun
    | SweepChat(what: SweepKind, project: string, session: string)
    | NewChat(chat: Chat)
    | ShutDown

  ghost predicate Can(s: State, step: Step) {
    match step
    case Move(t, c) => Enabled(s, t, c)
    case StartRun(req) =>
      req.from != req.to && !req.reserved && req.id !in s.h.drawnBy &&
      req.fromSession == NormalizedSession(req.fromSession)
    case StartBatch(from, fromSession, _, targets) =>
      from !in targets && fromSession == NormalizedSession(fromSession)
    case CancelRun(_) => true
    case SweepChat(what, _, session) => what.DeleteChat? ==> session != ""
    case NewChat(chat) => chat !in s.h.chats
    case ShutDown => true
  }

  ghost function OpStep(s: State, t: nat, c: Choice): State
    requires t < |s.threads| && s.threads[t].Op?
    requires OpEnabled(s, s.threads[t].kind, s.threads[t].id, s.threads[t].run, s.threads[t].pc, c)
  {
    match s.threads[t].pc
    case LockFirst => LockStep(s, t, FirstLock(s.threads[t].kind.req), LockSecond)
    case LockSecond => LockStep(s, t, SecondLock(s.threads[t].kind.req), Create)
    case Create => CreateStep(s, t, c)
    case Claim => ClaimStep(s, t, MayPublish(s, s.threads[t].kind.req, s.threads[t].run))
    case Append => AppendStep(s, t, c)
    case Activate => ActivateStep(s, t, c)
    case Withdraw => WithdrawStep(s, t)
    case Spawn => SpawnStep(s, t, c)
    case Poll => PollStep(s, t, c)
    case Load => LoadStep(s, t, c)
    case Tail => TailStep(s, t, c)
    case Reload => ReloadStep(s, t, c)
    case Lookup => LookupStep(s, t)
    case Finish => FinishStep(s, t, c)
    case Take => TakeStep(s, t)
    case EmitStorage => EmitStorageStep(s, t)
    case Release(_) => ReleaseStep(s, t)
    case Emit(_) => EmitStep(s, t)
    case Done(_) => s
  }

  ghost function Next(s: State, step: Step): State
    requires Can(s, step)
  {
    match step
    case Move(t, c) =>
      (match s.threads[t]
       case Op(_, _, _, _) => OpStep(s, t, c)
       case Sweep(_, _, _, _, _, _) => SweepStep(s, t, c)
       case Batch(_, _, _, _, _, _) => BatchStep(s, t, c))
    case StartRun(req) =>
      s.(threads := s.threads + [Op(Starter(req, false), req.id, NO_RUN, LockFirst)],
         h := s.h.(drawnBy := s.h.drawnBy[req.id := |s.threads|], launched := s.h.launched + {req.id}))
    case StartBatch(from, fromSession, batch, targets) =>
      s.(threads := s.threads + [Batch(from, fromSession, batch, targets, [], BReserve)])
    case CancelRun(id) =>
      s.(threads := s.threads + [Cancelling(s, id)])
    case SweepChat(what, project, session) =>
      s.(threads := s.threads + [Sweep(what, project, session, [], {}, SLock)])
    case NewChat(chat) => s.(sessions := s.sessions + {chat}, h := s.h.(chats := s.h.chats + {chat}))
    case ShutDown => s.(shutdown := true)
  }

  /** The steps can be taken one after the other from `s`. */
  ghost predicate Feasible(s: State, steps: seq<Step>)
    decreases |steps|
  {
    steps == [] || (Can(s, steps[0]) && Feasible(Next(s, steps[0]), steps[1..]))
  }

  ghost function After(s: State, steps: seq<Step>): State
    requires Feasible(s, steps)
    decreases |steps|
  {
    if steps == [] then s else After(Next(s, steps[0]), steps[1..])
  }
}
