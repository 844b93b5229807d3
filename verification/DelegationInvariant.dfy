/** What every step of the delegation protocol keeps. */
module DelegationInvariant {
  import opened DelegationRuns
  import opened DelegationStore
  import opened DelegationRegistry
  import opened DelegationProtocol
  import opened Wrappers

  // ------------------------------------------------------- per run and thread

  /** Nothing can be left to do for the run's row: it is gone, terminal, or the
      disk failed while one of its operations ran. */
  ghost predicate Settled(s: State, id: string) {
    id !in s.rows || !Live(s.rows[id]) || id in s.h.faulted
  }

  ghost predicate Begun(s: State, id: string, run: Run) {
    run.id == id && id in s.h.activated && id in s.h.ident && s.h.ident[id] == run
  }

  ghost predicate Unborn(s: State, req: Req) {
    req.id !in s.h.ident && req.id !in s.h.refused &&
    (!req.reserved ==> req.id !in s.registry && req.id !in s.h.withdrawn)
  }

  /** The child exists and so does the chat that asked. */
  ghost predicate Ready(s: State, req: Req, run: Run) {
    run == RunOf(req, run.toSession, run.startedAt) && run.toSession != "" &&
    (req.from, req.fromSession) in s.sessions && (req.to, run.toSession) in s.sessions
  }

  /** The entry that a start holding delegationMu is about to turn live. */
  ghost predicate Claimed(s: State, req: Req, run: Run) {
    if req.reserved then ReservedFor(s.registry, run, HandleOf(run))
    else req.id in s.registry && s.registry[req.id] == HandleOf(run)
  }

  ghost predicate Announced(s: State, id: string, storage: bool) {
    exists i :: 0 <= i < |s.events| && s.events[i].id == id && s.events[i].storage == storage
  }

  /** The disk failed on the run, or its row is gone. */
  ghost predicate Excused(s: State, id: string) { id in s.h.faulted || (id in s.h.ident && id !in s.rows) }

  /** The right to announce a run's end is held by one thread and used once. */
  ghost predicate ClosingOk(s: State, t: nat, id: string, pc: Pc) {
    (pc.Take? ==> Excused(s, id)) &&
    (pc.EmitStorage? ==> id in s.h.taken && s.h.taken[id] == t && !Announced(s, id, true)) &&
    ((pc.Release? || pc.Emit?) && pc.changed ==>
       id in s.h.winner && s.h.winner[id] == t && !Announced(s, id, false))
  }

  predicate BeforeRun(pc: Pc) { pc in {LockFirst, LockSecond, Create, Claim, Append, Activate, Withdraw, Spawn} }

  ghost predicate StarterOk(s: State, req: Req, busy: bool, id: string, run: Run, pc: Pc) {
    (BeforeRun(pc) ==> !busy) && req.id == id && req.from != req.to &&
      req.fromSession == NormalizedSession(req.fromSession) &&
    id in s.h.launched &&
    match pc
    case LockFirst | LockSecond | Create => Unborn(s, req)
    case Claim => Unborn(s, req) && Ready(s, req, run)
    case Append => id !in s.h.ident && id !in s.h.refused && Ready(s, req, run) && Claimed(s, req, run)
    case Activate =>
      id in s.h.ident && s.h.ident[id] == run && id !in s.h.activated && Ready(s, req, run) && Claimed(s, req, run)
    case Withdraw => Unborn(s, req) && run.to == req.to
    case Spawn => Begun(s, id, run)
    case Finish => Begun(s, id, run)
    case Take | EmitStorage => Begun(s, id, run) && Settled(s, id)
    case Release(_) => Begun(s, id, run) && Settled(s, id)
    case Emit(_) => Begun(s, id, run) && Settled(s, id)
    case Done(ok) => if ok then id in s.h.activated else id in s.h.refused || (Begun(s, id, run) && Settled(s, id))
    case _ => false
  }

  ghost predicate WatcherOk(s: State, id: string, run: Run, pc: Pc) {
    Begun(s, id, run) &&
    match pc
    case Poll | Load | Tail | Finish => true
    case Reload | Take | EmitStorage => Settled(s, id)
    case Emit(_) => Settled(s, id)
    case Release(changed) => !changed && (Settled(s, id) || s.shutdown)
    case Done(_) => true
    case _ => false
  }

  ghost predicate CancellerOk(s: State, live: bool, known: bool, id: string, run: Run, pc: Pc) {
    (live ==> Begun(s, id, run)) && (known ==> id in s.h.activated) &&
    (!live && known && !pc.Lookup? ==> id !in s.registry) &&
    match pc
    case Lookup => !live
    case Finish => true
    case Take => live && Settled(s, id)
    case Release(_) => live && Settled(s, id)
    case EmitStorage => live && Settled(s, id) && id !in s.registry
    case Emit(_) => (live || known ==> Settled(s, id)) && (live ==> id !in s.registry)
    case Done(_) => (live || known ==> Settled(s, id)) && (live ==> id !in s.registry)
    case _ => false
  }

  ghost predicate OpOk(s: State, t: nat, kind: Kind, id: string, run: Run, pc: Pc) {
    ClosingOk(s, t, id, pc) &&
    match kind
    case Starter(req, busy) => StarterOk(s, req, busy, id, run, pc)
    case Watcher => WatcherOk(s, id, run, pc)
    case Canceller(live, known, _) => CancellerOk(s, live, known, id, run, pc)
  }

  predicate RowTouches(r: Run, project: string, session: string) { Touches(HandleOf(r), project, session) }

  /** Every live run that a sweep has to end is still on its list. */
  ghost predicate Listed(s: State, project: string, session: string, rest: seq<string>) {
    (forall id :: id in s.registry && !s.registry[id].reserved && Touches(s.registry[id], project, session) ==>
       id in rest) &&
    (forall id :: id in s.rows && !Settled(s, id) && RowTouches(s.rows[id], project, session) ==>
       id in rest || s.shutdown)
  }

  ghost predicate IsCanceller(s: State, child: nat, id: string) {
    child < |s.threads| && s.threads[child].Op? && s.threads[child].kind.Canceller? && s.threads[child].id == id
  }

  ghost predicate SweepOk(s: State, what: SweepKind, project: string, session: string, todo: seq<string>,
                          spc: SweepPc)
  {
    (what.DeleteChat? ==> session != "" && (spc.SNext? || spc.SWait? ==> (project, session) in s.h.chats)) &&
    match spc
    case SLock | SSnapshot => true
    case SNext(k) => k <= |todo| && Listed(s, project, session, todo[k..])
    case SWait(k, child) =>
      k < |todo| && IsCanceller(s, child, todo[k]) &&
      Listed(s, project, session, if s.threads[child].kind.known then todo[k..] else todo[k + 1..])
    case SDone(ok) => what.DeleteChat? && ok ==> (project, session) in s.h.deleted
  }

  /** A batch member that is over or never began. */
  ghost predicate Over(s: State, id: string) {
    id !in s.h.launched || id in s.h.refused || (id in s.h.activated && Settled(s, id))
  }

  ghost predicate NotReserved(s: State, id: string) { id in s.registry ==> !s.registry[id].reserved }

  ghost predicate MembersOk(s: State, t: nat, from: string, fromSession: string, batch: string,
                            targets: seq<string>, reqs: seq<Req>) {
    |reqs| == |targets| && from !in targets &&
    fromSession == NormalizedSession(fromSession) &&
    (forall j :: 0 <= j < |reqs| ==>
       reqs[j] == Req(reqs[j].id, batch, from, fromSession, targets[j], true) &&
       reqs[j].id in s.h.drawnBy && s.h.drawnBy[reqs[j].id] == t) &&
    (forall j, k :: 0 <= j < k < |reqs| ==> reqs[j].id != reqs[k].id)
  }

  /** Members from `next` on have not been started. */
  ghost predicate Unstarted(s: State, reqs: seq<Req>, next: nat) {
    forall j :: next <= j < |reqs| ==> reqs[j].id !in s.h.launched
  }

  ghost predicate StartedUpTo(s: State, reqs: seq<Req>, lo: nat, hi: nat) {
    forall j :: lo <= j < hi && j < |reqs| ==> reqs[j].id in s.h.activated
  }

  ghost predicate CancelledUpTo(s: State, reqs: seq<Req>, hi: nat) {
    forall j :: 0 <= j < hi && j < |reqs| ==> reqs[j].id in s.h.activated && Settled(s, reqs[j].id)
  }

  ghost predicate BatchOk(s: State, t: nat, from: string, fromSession: string, batch: string,
                          targets: seq<string>, reqs: seq<Req>, bpc: BatchPc) {
    match bpc
    case BReserve => reqs == [] && from !in targets && fromSession == NormalizedSession(fromSession)
    case BStart(i) =>
      MembersOk(s, t, from, fromSession, batch, targets, reqs) && i <= |reqs| &&
      StartedUpTo(s, reqs, 0, i) && Unstarted(s, reqs, i)
    case BWait(i, child) =>
      MembersOk(s, t, from, fromSession, batch, targets, reqs) && i < |reqs| &&
      StartedUpTo(s, reqs, 0, i) && Unstarted(s, reqs, i + 1) &&
      child < |s.threads| && s.threads[child].Op? && s.threads[child].kind.Starter? &&
      s.threads[child].kind.req == reqs[i] && s.threads[child].id == reqs[i].id
    case BUndo(i, k) =>
      MembersOk(s, t, from, fromSession, batch, targets, reqs) && k <= i < |reqs| &&
      CancelledUpTo(s, reqs, k) && StartedUpTo(s, reqs, k, i) && Over(s, reqs[i].id) && Unstarted(s, reqs, i + 1)
    case BUndoWait(i, k, child) =>
      MembersOk(s, t, from, fromSession, batch, targets, reqs) && k < i < |reqs| &&
      CancelledUpTo(s, reqs, k) && StartedUpTo(s, reqs, k, i) && Over(s, reqs[i].id) && Unstarted(s, reqs, i + 1) &&
      IsCanceller(s, child, reqs[k].id) && s.threads[child].kind.known
    case BClean(i, k, ok) =>
      MembersOk(s, t, from, fromSession, batch, targets, reqs) && k <= |reqs| &&
      (forall j :: 0 <= j < k ==> NotReserved(s, reqs[j].id)) &&
      (if ok then StartedUpTo(s, reqs, 0, |reqs|) else forall j :: 0 <= j < |reqs| ==> Over(s, reqs[j].id))
    case BDone(i, ok) =>
      (reqs == [] && !ok) ||
      (MembersOk(s, t, from, fromSession, batch, targets, reqs) &&
       (forall j :: 0 <= j < |reqs| ==> NotReserved(s, reqs[j].id)) &&
       (if ok then StartedUpTo(s, reqs, 0, |reqs|) else forall j :: 0 <= j < |reqs| ==> Over(s, reqs[j].id)))
  }

  ghost predicate ThreadOk(s: State, t: nat)
    requires t < |s.threads|
  {
    match s.threads[t]
    case Op(kind, id, run, pc) => OpOk(s, t, kind, id, run, pc)
    case Sweep(what, project, session, todo, _, spc) => SweepOk(s, what, project, session, todo, spc)
    case Batch(from, fromSession, batch, targets, reqs, bpc) =>
      BatchOk(s, t, from, fromSession, batch, targets, reqs, bpc)
  }

  ghost predicate ThreadsOk(s: State) { forall t :: 0 <= t < |s.threads| ==> ThreadOk(s, t) }

  // ------------------------------------------------------------------- global

  /** The run's start holds delegationMu and is between its claim and its owner. */
  ghost predicate Publishing(s: State, id: string) {
    s.dmu.Some? && s.dmu.value < |s.threads| && HoldsOwners(s.threads[s.dmu.value]) &&
    s.threads[s.dmu.value].id == id
  }

  ghost predicate RegistryOk(s: State) {
    forall id :: id in s.registry ==>
      id in s.h.drawnBy && id !in s.h.withdrawn && id !in s.h.taken &&
      (if s.registry[id].reserved then id !in s.h.activated && (id in s.h.ident ==> Publishing(s, id))
       else Publishing(s, id) ||
            (id in s.h.activated && id in s.h.ident && s.registry[id] == HandleOf(s.h.ident[id])))
  }

  ghost predicate RowsOk(s: State) {
    (forall id :: id in s.rows ==> id in s.h.ident && SameRun(s.rows[id], s.h.ident[id])) &&
    (forall a, b :: (a in s.rows && b in s.rows && Live(s.rows[a]) && Live(s.rows[b]) &&
      s.rows[a].to == s.rows[b].to) ==>
       a == b)
  }

  /** Every live row has its exact owner, except while it is being published,
      after a disk fault on the run, and once the studio is shutting down. */
  ghost predicate OwnedOk(s: State) {
    forall id :: id in s.rows && Live(s.rows[id]) ==>
      Owns(s.registry, s.rows[id]) || Publishing(s, id) || id in s.h.faulted || s.shutdown
  }

  ghost predicate HistoryOk(s: State) {
    (forall id :: id in s.h.ident ==>
       s.h.ident[id].id == id && id in s.h.launched && id !in s.h.refused && id !in s.h.withdrawn &&
       (id in s.h.activated || Publishing(s, id))) &&
    (forall id :: id in s.h.activated ==> id in s.h.ident) &&
    (forall id :: id in s.h.launched ==> id in s.h.drawnBy) &&
    (forall id :: id in s.h.drawnBy ==> s.h.drawnBy[id] < |s.threads|) &&
    (forall id :: id in s.h.refused ==> id in s.h.launched) &&
    (forall id :: id in s.h.withdrawn ==> id in s.h.drawnBy) &&
    (forall id :: id in s.h.taken ==> id in s.h.activated) &&
    (forall id :: id in s.h.winner ==> id in s.h.ident && (id in s.rows ==> !Live(s.rows[id]))) &&
    s.sessions <= s.h.chats && s.h.deleted <= s.h.chats && s.h.deleted !! s.sessions
  }

  ghost predicate EventsOk(s: State) {
    (forall i :: 0 <= i < |s.events| ==>
       if s.events[i].storage then s.events[i].id in s.h.taken && s.h.taken[s.events[i].id] == s.events[i].author
       else s.events[i].id in s.h.winner && s.h.winner[s.events[i].id] == s.events[i].author) &&
    (forall i, j :: 0 <= i < j < |s.events| ==>
       s.events[i].id != s.events[j].id || s.events[i].storage != s.events[j].storage)
  }

  ghost predicate Untouched(s: State, chat: Chat) {
    (forall id :: id in s.registry && !s.registry[id].reserved ==> !Touches(s.registry[id], chat.0, chat.1)) &&
    (forall id :: id in s.rows && RowTouches(s.rows[id], chat.0, chat.1) ==> Settled(s, id) || s.shutdown)
  }

  ghost predicate DeletedOk(s: State) {
    forall chat :: chat in s.h.deleted ==> chat.1 != "" && Untouched(s, chat)
  }

  ghost predicate LocksOk(s: State) {
    (forall t, p :: 0 <= t < |s.threads| && Holds(s.threads[t], p) ==> p in s.meta && s.meta[p] == t) &&
    (forall t :: 0 <= t < |s.threads| && HoldsOwners(s.threads[t]) ==> s.dmu == Some(t)) &&
    (s.dmu.Some? ==> s.dmu.value < |s.threads| && HoldsOwners(s.threads[s.dmu.value]) &&
                     s.threads[s.dmu.value].kind.Starter?)
  }

  predicate IsStart(th: Thread) { th.Op? && th.kind.Starter? }

  ghost predicate StartersApart(s: State) {
    forall t, u :: 0 <= t < u < |s.threads| && IsStart(s.threads[t]) && IsStart(s.threads[u]) ==>
      s.threads[t].id != s.threads[u].id
  }

  ghost predicate Global(s: State) {
    Bounded(s.registry) && RegistryOk(s) && RowsOk(s) && OwnedOk(s) && HistoryOk(s) && EventsOk(s) && DeletedOk(s) &&
    LocksOk(s) && StartersApart(s)
  }

  ghost predicate Inv(s: State) { Global(s) && ThreadsOk(s) }

  // ----------------------------------------------- what one step may do to all

  ghost predicate SameRole(a: Thread, b: Thread) {
    (a.Op? <==> b.Op?) &&
    (a.Op? ==> a.id == b.id && (a.kind.Starter? <==> b.kind.Starter?) && (a.kind.Canceller? <==> b.kind.Canceller?) &&
               (a.kind.Starter? ==> a.kind.req == b.kind.req) &&
               (a.kind.Canceller? ==> a.kind.known == b.kind.known && a.kind.drawn == b.kind.drawn))
  }

  ghost predicate Extends<T>(a: map<string, T>, b: map<string, T>) {
    forall id :: id in a ==> id in b && b[id] == a[id]
  }

  ghost predicate GrowsThreads(a: seq<Thread>, b: seq<Thread>) {
    |a| <= |b| && forall u :: 0 <= u < |a| ==> SameRole(a[u], b[u])
  }

  ghost predicate GrowsHistory(h: History, h': History) {
    Extends(h.ident, h'.ident) && Extends(h.drawnBy, h'.drawnBy) &&
    Extends(h.winner, h'.winner) && Extends(h.taken, h'.taken) &&
    h.launched <= h'.launched && h.activated <= h'.activated && h.refused <= h'.refused &&
    h.withdrawn <= h'.withdrawn && h.faulted <= h'.faulted && h.ousted <= h'.ousted &&
    h.deleted <= h'.deleted && h.chats <= h'.chats
  }

  /** No step rewrites a terminal row, revives a run, gives a run a second owner, or
      takes back an announcement. */
  ghost predicate Grows(s: State, s': State) {
    GrowsThreads(s.threads, s'.threads) && GrowsHistory(s.h, s'.h) &&
    s.events <= s'.events && (s.shutdown ==> s'.shutdown) &&
    (forall id :: id in s.h.ident && id in s'.rows ==>
       id in s.rows && SameRun(s'.rows[id], s.rows[id]) && (!Live(s.rows[id]) ==> s'.rows[id] == s.rows[id])) &&
    (forall id :: id in s.h.activated && id !in s.registry ==> id !in s'.registry) &&
    (forall id :: id in s.h.drawnBy && id in s'.registry && s'.registry[id].reserved ==>
       id in s.registry && s.registry[id] == s'.registry[id])
  }

  ghost predicate Mine(s: State, t: nat, id: string) {
    t < |s.threads| && s.threads[t].Op? && s.threads[t].kind.Starter? && s.threads[t].id == id
  }

  ghost predicate HasBoth(s: State, t: nat, from: string, to: string) {
    from in s.meta && s.meta[from] == t && to in s.meta && s.meta[to] == t
  }

  /** What thread `t` leaves alone when it moves: other threads, what their locks
      protect, and other starts' run IDs. */
  ghost predicate Acts(s: State, s': State, t: nat) {
    Grows(s, s') && ActsAround(s, s', t) && ActsOnRuns(s, s', t)
  }

  ghost predicate ActsAround(s: State, s': State, t: nat) {
    (forall u :: 0 <= u < |s.threads| && u != t ==> u < |s'.threads| && s'.threads[u] == s.threads[u]) &&
    (s.dmu.Some? && s.dmu.value != t ==> s'.registry == s.registry && s'.dmu == s.dmu) &&
    (forall p :: p in s.meta && s.meta[p] != t ==> p in s'.meta && s'.meta[p] == s.meta[p]) &&
    (forall k :: k in s.sessions && k !in s'.sessions ==> k.0 in s.meta && s.meta[k.0] == t) &&
    (|s'.events| <= |s.events| + 1) &&
    (|s'.events| == |s.events| + 1 ==> s'.events[|s.events|].author == t)
  }

  ghost predicate ActsOnRuns(s: State, s': State, t: nat) {
    (forall id :: id in s'.registry && id !in s.registry ==> id !in s.h.drawnBy || Mine(s, t, id)) &&
    (forall id :: id in s'.h.ident && id !in s.h.ident ==> Mine(s, t, id)) &&
    (forall id :: id in s'.h.refused && id !in s.h.refused ==> Mine(s, t, id)) &&
    (forall id :: id in s'.h.withdrawn && id !in s.h.withdrawn ==> id in s.registry) &&
    (forall id :: id in s'.h.activated && id !in s.h.activated ==> Mine(s, t, id)) &&
    (forall id :: id in s'.h.launched && id !in s.h.launched ==> id !in s.h.drawnBy || s.h.drawnBy[id] == t) &&
    (forall id :: id in s'.rows && id !in s.rows ==> HasBoth(s, t, s'.rows[id].from, s'.rows[id].to)) &&
    (forall id :: id in s'.registry && !s'.registry[id].reserved ==>
       (id in s.registry && s'.registry[id] == s.registry[id]) ||
       HasBoth(s, t, s'.registry[id].from, s'.registry[id].to))
  }

  // ---------------------------------------------------- the others stay as is

  lemma SettledStays(s: State, s': State, id: string)
    requires Grows(s, s') && id in s.h.ident && Settled(s, id)
    ensures Settled(s', id)
  {
  }

  lemma WatcherStays(s: State, s': State, id: string, run: Run, pc: Pc)
    requires Grows(s, s') && WatcherOk(s, id, run, pc) && (Settled(s, id) ==> Settled(s', id))
    ensures WatcherOk(s', id, run, pc)
  {
  }

  lemma CancellerStays(s: State, s': State, live: bool, known: bool, id: string, run: Run, pc: Pc)
    requires Grows(s, s') && CancellerOk(s, live, known, id, run, pc)
    requires id in s.h.ident && Settled(s, id) ==> Settled(s', id)
    requires id in s.h.activated ==> id in s.h.ident
    ensures CancellerOk(s', live, known, id, run, pc)
  {
  }

  lemma OpStays(s: State, s': State, t: nat, u: nat)
    requires Inv(s) && Acts(s, s', t) && EventsOk(s') && LocksOk(s)
    requires u != t && u < |s.threads| && s.threads[u].Op?
    ensures ThreadOk(s', u)
  {
    var th := s.threads[u];
    var id := th.id;
    assert ThreadOk(s, u);
    if id in s.h.ident && Settled(s, id) { SettledStays(s, s', id); }
    match th.kind {
      case Starter(_, _) => StarterStays(s, s', t, u);
      case Watcher => WatcherStays(s, s', id, th.run, th.pc);
      case Canceller(live, known, _) => CancellerStays(s, s', live, known, id, th.run, th.pc);
    }
    ClosingStays(s, s', t, u);
  }

  lemma ClosingStays(s: State, s': State, t: nat, u: nat)
    requires Acts(s, s', t) && EventsOk(s')
    requires u != t && u < |s.threads| && s.threads[u].Op? && ClosingOk(s, u, s.threads[u].id, s.threads[u].pc)
    ensures ClosingOk(s', u, s.threads[u].id, s.threads[u].pc)
  {
    var id := s.threads[u].id;
    forall storage | !Announced(s, id, storage) && Announced(s', id, storage)
      ensures |s'.events| == |s.events| + 1 && s'.events[|s.events|] == Event(id, t, storage)
    {
      var i :| 0 <= i < |s'.events| && s'.events[i].id == id && s'.events[i].storage == storage;
    }
  }

  lemma ReadyStays(s: State, s': State, t: nat, u: nat)
    requires LocksOk(s) && Acts(s, s', t) && u != t && u < |s.threads| && IsStart(s.threads[u])
    requires HoldsBoth(s.threads[u]) && Ready(s, s.threads[u].kind.req, s.threads[u].run)
    ensures Ready(s', s.threads[u].kind.req, s.threads[u].run)
  {
  }

  lemma UnbornStays(s: State, s': State, t: nat, req: Req)
    requires HistoryOk(s) && Acts(s, s', t) && req.id in s.h.launched && !Mine(s, t, req.id)
    requires Unborn(s, req)
    ensures Unborn(s', req)
  {
  }

  lemma OtherStart(s: State, t: nat, u: nat)
    requires StartersApart(s) && u != t && u < |s.threads| && IsStart(s.threads[u])
    ensures !Mine(s, t, s.threads[u].id)
  {
  }

  lemma StarterStays(s: State, s': State, t: nat, u: nat)
    requires Inv(s) && Acts(s, s', t)
    requires u != t && u < |s.threads| && IsStart(s.threads[u])
    ensures var th := s.threads[u]; StarterOk(s', th.kind.req, th.kind.busy, th.id, th.run, th.pc)
  {
    var th := s.threads[u];
    assert ThreadOk(s, u);
    if BeforeRun(th.pc) { EarlyStarterStays(s, s', t, u); } else { LateStarterStays(s, s', t, u); }
  }

  lemma LateStarterStays(s: State, s': State, t: nat, u: nat)
    requires HistoryOk(s) && Acts(s, s', t)
    requires u != t && u < |s.threads| && IsStart(s.threads[u]) && !BeforeRun(s.threads[u].pc) && ThreadOk(s, u)
    ensures var th := s.threads[u]; StarterOk(s', th.kind.req, th.kind.busy, th.id, th.run, th.pc)
  {
    var th := s.threads[u];
    if th.id in s.h.ident && Settled(s, th.id) { SettledStays(s, s', th.id); }
  }

  lemma EarlyStarterStays(s: State, s': State, t: nat, u: nat)
    requires StartersApart(s) && LocksOk(s) && HistoryOk(s) && Acts(s, s', t)
    requires u != t && u < |s.threads| && IsStart(s.threads[u]) && BeforeRun(s.threads[u].pc) && ThreadOk(s, u)
    ensures var th := s.threads[u]; StarterOk(s', th.kind.req, th.kind.busy, th.id, th.run, th.pc)
  {
    var th := s.threads[u];
    var req := th.kind.req;
    assert StarterOk(s, req, th.kind.busy, th.id, th.run, th.pc);
    OtherStart(s, t, u);
    if Unborn(s, req) { UnbornStays(s, s', t, req); }
    if HoldsBoth(th) && Ready(s, req, th.run) { ReadyStays(s, s', t, u); }
    if HoldsOwners(th) { assert s'.registry == s.registry; }
  }

  lemma ListedStays(s: State, s': State, t: nat, project: string, session: string, rest: seq<string>)
    requires RowsOk(s) && Acts(s, s', t) && Listed(s, project, session, rest)
    requires project in s.meta && s.meta[project] != t
    ensures Listed(s', project, session, rest)
  {
    forall id | id in s'.rows && !Settled(s', id) && RowTouches(s'.rows[id], project, session)
      ensures id in rest || s'.shutdown
    {
      if id in s.rows { SameRunTouches(s'.rows[id], s.rows[id], project, session); }
    }
  }

  lemma SameRunTouches(a: Run, b: Run, project: string, session: string)
    requires SameRun(a, b)
    ensures RowTouches(a, project, session) == RowTouches(b, project, session)
  {
  }

  lemma WaitingStays(s: State, s': State, child: nat, id: string)
    requires Grows(s, s') && IsCanceller(s, child, id)
    ensures IsCanceller(s', child, id) && s'.threads[child].kind.known == s.threads[child].kind.known
  {
  }

  lemma SweepHoldsOn(s: State, t: nat, u: nat)
    requires LocksOk(s) && u != t && u < |s.threads| && s.threads[u].Sweep?
    requires s.threads[u].spc.SNext? || s.threads[u].spc.SWait?
    ensures s.threads[u].project in s.meta && s.meta[s.threads[u].project] != t
  {
  }

  lemma SweepStays(s: State, s': State, t: nat, what: SweepKind, project: string, session: string,
                   todo: seq<string>, spc: SweepPc)
    requires RowsOk(s) && Acts(s, s', t) && SweepOk(s, what, project, session, todo, spc)
    requires spc.SNext? || spc.SWait? ==> project in s.meta && s.meta[project] != t
    ensures SweepOk(s', what, project, session, todo, spc)
  {
    match spc
    case SNext(k) =>
      ListedStays(s, s', t, project, session, todo[k..]);
    case SWait(k, child) =>
      WaitingStays(s, s', child, todo[k]);
      ListedStays(s, s', t, project, session, if s.threads[child].kind.known then todo[k..] else todo[k + 1..]);
    case _ =>
  }

  lemma OverStays(s: State, s': State, t: nat, id: string)
    requires HistoryOk(s) && Acts(s, s', t) && id in s.h.drawnBy && s.h.drawnBy[id] != t && Over(s, id)
    ensures Over(s', id)
  {
  }

  lemma MembersStay(s: State, s': State, t: nat, u: nat)
    requires Inv(s) && Acts(s, s', t) && u != t && u < |s.threads| && s.threads[u].Batch?
    requires var th := s.threads[u];
             MembersOk(s, u, th.from, th.fromSession, th.batch, th.targets, th.reqs)
    ensures var th := s.threads[u];
            MembersOk(s', u, th.from, th.fromSession, th.batch, th.targets, th.reqs)
    ensures forall j :: 0 <= j < |s.threads[u].reqs| ==>
              (Over(s, s.threads[u].reqs[j].id) ==> Over(s', s.threads[u].reqs[j].id)) &&
              (NotReserved(s, s.threads[u].reqs[j].id) ==> NotReserved(s', s.threads[u].reqs[j].id)) &&
              (s.threads[u].reqs[j].id !in s.h.launched ==> s.threads[u].reqs[j].id !in s'.h.launched) &&
              (s.threads[u].reqs[j].id in s.h.activated && Settled(s, s.threads[u].reqs[j].id) ==>
                 Settled(s', s.threads[u].reqs[j].id))
  {
    var reqs := s.threads[u].reqs;
    forall j | 0 <= j < |reqs| && Over(s, reqs[j].id) ensures Over(s', reqs[j].id) {
      OverStays(s, s', t, reqs[j].id);
    }
    forall j | 0 <= j < |reqs| && reqs[j].id in s.h.activated &&
      Settled(s, reqs[j].id) ensures Settled(s', reqs[j].id) {
      SettledStays(s, s', reqs[j].id);
    }
  }

  /** What a batch knows about the thread it waits for. */
  lemma ChildStays(s: State, s': State, child: nat)
    requires Grows(s, s') && child < |s.threads| && s.threads[child].Op?
    ensures child < |s'.threads| && SameRole(s.threads[child], s'.threads[child])
  {
  }

  lemma BatchStays(s: State, s': State, t: nat, u: nat)
    requires Inv(s) && Acts(s, s', t) && u != t && u < |s.threads| && s.threads[u].Batch?
    ensures ThreadOk(s', u)
  {
    var th := s.threads[u];
    assert ThreadOk(s, u);
    if MembersOk(s, u, th.from, th.fromSession, th.batch, th.targets, th.reqs) {
      MembersStay(s, s', t, u);
    }
    match th.bpc
    case BWait(_, _) => WaitStays(s, s', t, u);
    case BUndoWait(_, _, _) => WaitStays(s, s', t, u);
    case _ =>
  }

  lemma WaitStays(s: State, s': State, t: nat, u: nat)
    requires Grows(s, s') && u < |s.threads| && s.threads[u].Batch? && ThreadOk(s, u)
    requires s.threads[u].bpc.BWait? || s.threads[u].bpc.BUndoWait?
    requires var th := s.threads[u];
             MembersOk(s', u, th.from, th.fromSession, th.batch, th.targets, th.reqs) &&
             (forall j :: 0 <= j < |th.reqs| ==>
                (Over(s, th.reqs[j].id) ==> Over(s', th.reqs[j].id)) &&
                (th.reqs[j].id !in s.h.launched ==> th.reqs[j].id !in s'.h.launched) &&
                (th.reqs[j].id in s.h.activated && Settled(s, th.reqs[j].id) ==> Settled(s', th.reqs[j].id)))
    ensures ThreadOk(s', u) || s'.threads[u] != s.threads[u]
  {
    var th := s.threads[u];
    ChildStays(s, s', th.bpc.child);
  }

  /** Whatever thread `t` does within its rights, the other threads are unaffected. */
  lemma OthersStay(s: State, s': State, t: nat)
    requires Inv(s) && Acts(s, s', t) && EventsOk(s')
    ensures forall u :: 0 <= u < |s.threads| && u != t ==> ThreadOk(s', u)
  {
    forall u | 0 <= u < |s.threads| && u != t ensures ThreadOk(s', u) {
      match s.threads[u]
      case Op(_, _, _, _) => OpStays(s, s', t, u);
      case Sweep(what, project, session, todo, _, spc) =>
        assert ThreadOk(s, u);
        if spc.SNext? || spc.SWait? { SweepHoldsOn(s, t, u); }
        SweepStays(s, s', t, what, project, session, todo, spc);
      case Batch(_, _, _, _, _, _) => BatchStays(s, s', t, u);
    }
  }
}
