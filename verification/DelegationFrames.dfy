/** How the parts of the delegation invariant carry over a step that leaves the
    state they speak of alone. */
module DelegationFrames {
  import opened DelegationRuns
  import opened DelegationStore
  import opened DelegationRegistry
  import opened DelegationProtocol
  import opened DelegationInvariant
  import opened Wrappers

  /** Only thread `t` moved, and it keeps its role. */
  ghost predicate Only(s: State, s': State, t: nat) {
    t < |s.threads| == |s'.threads| && SameRole(s.threads[t], s'.threads[t]) &&
    forall u :: 0 <= u < |s.threads| && u != t ==> s'.threads[u] == s.threads[u]
  }

  /** The publication in progress, if any, is the same. */
  ghost predicate SamePublishing(s: State, s': State) {
    s'.dmu == s.dmu &&
    (s.dmu.Some? ==> s.dmu.value < |s.threads| && s.dmu.value < |s'.threads| &&
                     HoldsOwners(s.threads[s.dmu.value]) == HoldsOwners(s'.threads[s.dmu.value]) &&
                     s.threads[s.dmu.value].Op? == s'.threads[s.dmu.value].Op? &&
                     (s.threads[s.dmu.value].Op? ==> s.threads[s.dmu.value].id == s'.threads[s.dmu.value].id))
  }

  ghost predicate Shrinks(s: State, s': State) {
    forall id :: id in s'.registry ==> id in s.registry && s'.registry[id] == s.registry[id]
  }

  lemma RegistryFrame(s: State, s': State)
    requires RegistryOk(s) && SamePublishing(s, s') && Shrinks(s, s')
    requires s'.h.activated == s.h.activated && s'.h.ident == s.h.ident && s'.h.drawnBy == s.h.drawnBy
    requires forall id :: id in s'.registry ==> id !in s'.h.withdrawn && id !in s'.h.taken
    ensures RegistryOk(s')
  {
  }

  lemma RowsFrame(s: State, s': State)
    requires RowsOk(s) && s'.rows == s.rows && s'.h.ident == s.h.ident
    ensures RowsOk(s')
  {
  }

  lemma OwnedFrame(s: State, s': State)
    requires OwnedOk(s) && SamePublishing(s, s') && s.h.faulted <= s'.h.faulted && (s.shutdown ==> s'.shutdown)
    requires forall id :: id in s'.rows && Live(s'.rows[id]) ==>
               id in s.rows && Live(s.rows[id]) &&
               (Owns(s.registry, s.rows[id]) ==> Owns(s'.registry, s'.rows[id]) || id in s'.h.faulted || s'.shutdown)
    ensures OwnedOk(s')
  {
  }

  lemma HistoryFrame(s: State, s': State)
    requires HistoryOk(s) && SamePublishing(s, s') && |s.threads| <= |s'.threads|
    requires s'.h.ident == s.h.ident && s'.h.launched == s.h.launched && s'.h.activated == s.h.activated &&
             s'.h.drawnBy == s.h.drawnBy && s'.h.winner == s.h.winner && s'.h.deleted == s.h.deleted
    requires forall id :: id in s'.h.refused ==> id in s.h.launched && id !in s.h.ident
    requires forall id :: id in s'.h.withdrawn ==> id in s.h.drawnBy && id !in s.h.ident
    requires forall id :: id in s'.h.taken ==> id in s.h.activated
    requires forall id :: id in s.h.ident && id in s'.rows ==> id in s.rows && (!Live(s.rows[id]) ==>
             !Live(s'.rows[id]))
    requires s'.sessions <= s'.h.chats && s.h.chats <= s'.h.chats && s.h.deleted !! s'.sessions
    ensures HistoryOk(s')
  {
  }

  lemma EventsFrame(s: State, s': State)
    requires EventsOk(s) && s'.events == s.events
    requires Extends(s.h.winner, s'.h.winner) && Extends(s.h.taken, s'.h.taken)
    ensures EventsOk(s')
  {
  }

  lemma EventsAdd(s: State, s': State, e: Event)
    requires EventsOk(s) && s'.events == s.events + [e] && s'.h.winner == s.h.winner && s'.h.taken == s.h.taken
    requires !Announced(s, e.id, e.storage)
    requires if e.storage then e.id in s.h.taken && s.h.taken[e.id] == e.author
             else e.id in s.h.winner && s.h.winner[e.id] == e.author
    ensures EventsOk(s')
  {
  }

  lemma DeletedFrame(s: State, s': State)
    requires DeletedOk(s) && s'.h.deleted == s.h.deleted && (s.shutdown ==> s'.shutdown)
    requires forall id :: id in s'.registry && !s'.registry[id].reserved ==>
               id in s.registry && s'.registry[id] == s.registry[id]
    requires forall id :: id in s'.rows ==>
               id in s.rows && SameRun(s'.rows[id], s.rows[id]) && (Settled(s, id) ==> Settled(s', id))
    ensures DeletedOk(s')
  {
  }

  /** New live entries and rows of a start whose two chats exist touch no deleted
      chat. */
  lemma ReadyTouchesNoDeleted(s: State, req: Req, run: Run, chat: Chat)
    requires Ready(s, req, run) && chat !in s.sessions && chat.1 != "" &&
             req.fromSession == NormalizedSession(req.fromSession)
    ensures !Touches(HandleOf(run), chat.0, chat.1)
  {
  }

  lemma LocksFrame(s: State, s': State, t: nat)
    requires LocksOk(s) && Only(s, s', t) && SamePublishing(s, s')
    requires HoldsOwners(s.threads[t]) == HoldsOwners(s'.threads[t])
    requires forall p :: p in s.meta && s.meta[p] != t ==> p in s'.meta && s'.meta[p] == s.meta[p]
    requires forall p :: Holds(s'.threads[t], p) ==> p in s'.meta && s'.meta[p] == t
    ensures LocksOk(s')
  {
  }

  lemma ApartFrame(s: State, s': State, t: nat)
    requires StartersApart(s) && Only(s, s', t)
    ensures StartersApart(s')
  {
  }

  lemma OnlyKeepsRoles(s: State, s': State, t: nat)
    requires Only(s, s', t)
    ensures forall u :: 0 <= u < |s.threads| ==> SameRole(s.threads[u], s'.threads[u])
  {
  }

  /** A step that changes nothing but its own thread, its metadata locks, and the
      record of store errors. */
  ghost predicate Quiet(s: State, s': State, t: nat) {
    Only(s, s', t) && SamePublishing(s, s') && HoldsOwners(s.threads[t]) == HoldsOwners(s'.threads[t]) &&
    s'.registry == s.registry && s'.rows == s.rows && s'.sessions == s.sessions && s'.shutdown == s.shutdown &&
    s'.h == s.h.(faulted := s'.h.faulted) && s.h.faulted <= s'.h.faulted &&
    (forall p :: p in s.meta && s.meta[p] != t ==> p in s'.meta && s'.meta[p] == s.meta[p]) &&
    (forall p :: Holds(s'.threads[t], p) ==> p in s'.meta && s'.meta[p] == t)
  }

  lemma QuietKeeps(s: State, s': State, t: nat)
    requires Global(s) && Quiet(s, s', t) && s'.events == s.events
    ensures Global(s') && Acts(s, s', t)
  {
    QuietKeepsMost(s, s', t);
    EventsFrame(s, s');
    QuietActs(s, s', t);
  }

  lemma QuietAnnounces(s: State, s': State, t: nat, e: Event)
    requires Global(s) && Quiet(s, s', t) && s'.events == s.events + [e] && e.author == t
    requires !Announced(s, e.id, e.storage)
    requires if e.storage then e.id in s.h.taken && s.h.taken[e.id] == e.author
             else e.id in s.h.winner && s.h.winner[e.id] == e.author
    ensures Global(s') && Acts(s, s', t)
  {
    QuietKeepsMost(s, s', t);
    EventsAdd(s, s', e);
    QuietActs(s, s', t);
  }

  lemma QuietKeepsMost(s: State, s': State, t: nat)
    requires Global(s) && Quiet(s, s', t)
    ensures Bounded(s'.registry) && RegistryOk(s') && RowsOk(s') && OwnedOk(s') && HistoryOk(s') && DeletedOk(s')
    ensures LocksOk(s') && StartersApart(s')
  {
    RegistryFrame(s, s');
    RowsFrame(s, s');
    OwnedFrame(s, s');
    HistoryFrame(s, s');
    DeletedFrame(s, s');
    LocksFrame(s, s', t);
    ApartFrame(s, s', t);
  }

  lemma QuietActs(s: State, s': State, t: nat)
    requires Quiet(s, s', t) && (s'.events == s.events || exists e :: s'.events == s.events + [e] && e.author == t)
    ensures Acts(s, s', t)
  {
  }

  lemma SubsetIsSmaller(a: set<string>, b: set<string>)
    requires a <= b
    ensures |a| <= |b|
  {
    assert b == a + (b - a);
  }

  lemma ShrinkingStaysBounded(a: Registry, b: Registry)
    requires Bounded(a) && forall id :: id in b ==> id in a && b[id] == a[id]
    ensures Bounded(b)
  {
    SubsetIsSmaller(b.Keys, a.Keys);
  }

  /** A step that at most removes an entry, creates or removes a chat, and notes
      why; rows, announcements and the publication in progress stay. */
  ghost predicate Calm(s: State, s': State, t: nat) {
    Only(s, s', t) && SamePublishing(s, s') && HoldsOwners(s.threads[t]) == HoldsOwners(s'.threads[t]) &&
    s'.rows == s.rows && s'.events == s.events && s'.shutdown == s.shutdown &&
    s'.h == s.h.(chats := s'.h.chats, refused := s'.h.refused, withdrawn := s'.h.withdrawn, taken := s'.h.taken) &&
    CalmRegistry(s, s') && CalmNotes(s, s', t) &&
    (forall p :: p in s.meta && s.meta[p] != t ==> p in s'.meta && s'.meta[p] == s.meta[p]) &&
    (forall p :: Holds(s'.threads[t], p) ==> p in s'.meta && s'.meta[p] == t) &&
    s'.sessions <= s'.h.chats && s.h.chats <= s'.h.chats && s.h.deleted !! s'.sessions &&
    (forall k :: k in s.sessions && k !in s'.sessions ==> k.0 in s.meta && s.meta[k.0] == t)
  }

  ghost predicate CalmRegistry(s: State, s': State) {
    Shrinks(s, s') && (s'.registry == s.registry || s.dmu.None?) &&
    (forall id :: id in s'.registry ==> id !in s'.h.withdrawn && id !in s'.h.taken) &&
    (forall id :: id in s.rows && Live(s.rows[id]) && Owns(s.registry, s.rows[id]) ==>
       Owns(s'.registry, s.rows[id]) || id in s.h.faulted || s.shutdown)
  }

  ghost predicate CalmNotes(s: State, s': State, t: nat) {
    s.h.refused <= s'.h.refused && s.h.withdrawn <= s'.h.withdrawn && Extends(s.h.taken, s'.h.taken) &&
    (forall id :: id in s'.h.refused && id !in s.h.refused ==> Mine(s, t, id)) &&
    (forall id :: id in s'.h.refused ==> id in s.h.launched && id !in s.h.ident) &&
    (forall id :: id in s'.h.withdrawn ==> id in s.h.drawnBy && id !in s.h.ident) &&
    (forall id :: id in s'.h.withdrawn && id !in s.h.withdrawn ==> id in s.registry) &&
    (forall id :: id in s'.h.taken ==> id in s.h.activated)
  }

  lemma CalmKeeps(s: State, s': State, t: nat)
    requires Global(s) && Calm(s, s', t)
    ensures Global(s') && Acts(s, s', t)
  {
    CalmKeepsRuns(s, s', t);
    EventsFrame(s, s');
    LocksFrame(s, s', t);
    ApartFrame(s, s', t);
    CalmActs(s, s', t);
  }

  lemma CalmKeepsRuns(s: State, s': State, t: nat)
    requires Bounded(s.registry) && RegistryOk(s) && RowsOk(s) && OwnedOk(s) && HistoryOk(s) && DeletedOk(s)
    requires Calm(s, s', t)
    ensures Bounded(s'.registry) && RegistryOk(s') && RowsOk(s') && OwnedOk(s') && HistoryOk(s') && DeletedOk(s')
  {
    ShrinkingStaysBounded(s.registry, s'.registry);
    RegistryFrame(s, s');
    RowsFrame(s, s');
    OwnedFrame(s, s');
    HistoryFrame(s, s');
    DeletedFrame(s, s');
  }

  lemma CalmActs(s: State, s': State, t: nat)
    requires RowsOk(s) && Calm(s, s', t)
    ensures Acts(s, s', t)
  {
  }
}
