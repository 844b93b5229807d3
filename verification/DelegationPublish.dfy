/** The steps of the delegation protocol that add an owner or write a row keep the
    invariant. */
module DelegationPublish {
  import opened DelegationRuns
  import opened DelegationStore
  import opened DelegationRegistry
  import opened DelegationProtocol
  import opened DelegationInvariant
  import opened DelegationFrames
  import opened DelegationSteps
  import opened Wrappers

  /** Locks after a step that may take or give back delegationMu. */
  lemma LocksAfter(s: State, s': State, t: nat, th: Thread)
    requires LocksOk(s) && t < |s.threads| && s'.threads == s.threads[t := th]
    requires forall p :: Holds(th, p) ==> p in s'.meta && s'.meta[p] == t
    requires forall p :: p in s.meta && s.meta[p] != t ==> p in s'.meta && s'.meta[p] == s.meta[p]
    requires if HoldsOwners(th) then s'.dmu == Some(t) && th.kind.Starter? && (s.dmu.None? || s.dmu.value == t)
             else s'.dmu == if s.dmu == Some(t) then None else s.dmu
    ensures LocksOk(s')
  {
  }

  // ------------------------------------------------------------------- claim

  ghost predicate Claiming(s: State, t: nat) {
    AtPc(s, t, Claim) && IsStart(s.threads[t]) && s.dmu.None? && MayPublish(s, s.threads[t].kind.req, s.threads[t].run)
  }

  lemma ClaimBounded(s: State, t: nat)
    requires Claiming(s, t) && Bounded(s.registry)
    ensures Bounded(ClaimStep(s, t, true).registry)
  {
    var th := s.threads[t];
    assert th.run.id == th.id;
    if !th.kind.req.reserved { ClaimingStaysBounded(s.registry, th.id, HandleOf(th.run)); }
  }

  lemma ClaimRegistry(s: State, t: nat)
    requires Claiming(s, t) && RegistryOk(s) && HistoryOk(s)
    ensures RegistryOk(ClaimStep(s, t, true))
  {
    var th, s' := s.threads[t], ClaimStep(s, t, true);
    assert Publishing(s', th.id);
    forall id | id in s'.registry && id != th.id ensures id in s.registry && s'.registry[id] == s.registry[id] { }
    forall id ensures !Publishing(s, id) { }
  }

  lemma ClaimOthers(s: State, t: nat)
    requires Claiming(s, t) && RowsOk(s) && HistoryOk(s) && EventsOk(s)
    ensures RowsOk(ClaimStep(s, t, true)) && HistoryOk(ClaimStep(s, t, true)) && EventsOk(ClaimStep(s, t, true))
  {
  }

  lemma ClaimOwned(s: State, t: nat)
    requires Claiming(s, t) && RowsOk(s) && OwnedOk(s)
    ensures OwnedOk(ClaimStep(s, t, true))
  {
  }

  lemma ClaimDeleted(s: State, t: nat)
    requires Claiming(s, t) && DeletedOk(s) && HistoryOk(s)
    ensures DeletedOk(ClaimStep(s, t, true))
  {
    var th, s' := s.threads[t], ClaimStep(s, t, true);
    forall chat | chat in s'.h.deleted ensures chat.1 != "" && Untouched(s', chat) {
      ReadyTouchesNoDeleted(s, th.kind.req, th.run, chat);
      assert Untouched(s, chat);
    }
  }

  lemma ClaimLocks(s: State, t: nat)
    requires Claiming(s, t) && LocksOk(s) && StartersApart(s)
    ensures LocksOk(ClaimStep(s, t, true)) && StartersApart(ClaimStep(s, t, true))
  {
    var th, s' := s.threads[t], ClaimStep(s, t, true);
    OwnLock(s, t, th.kind.req.from);
    OwnLock(s, t, th.kind.req.to);
    LocksAfter(s, s', t, th.(pc := Append));
    ApartFrame(s, s', t);
  }

  lemma ClaimGrows(s: State, t: nat)
    requires Claiming(s, t) && HistoryOk(s) && RowsOk(s)
    ensures Grows(s, ClaimStep(s, t, true))
  {
    OnlyKeepsRoles(s, ClaimStep(s, t, true), t);
  }

  lemma ClaimActs(s: State, t: nat)
    requires Claiming(s, t) && LocksOk(s)
    ensures ActsOnRuns(s, ClaimStep(s, t, true), t)
  {
    OwnLock(s, t, s.threads[t].kind.req.from);
    OwnLock(s, t, s.threads[t].kind.req.to);
  }

  lemma ClaimActsAround(s: State, t: nat)
    requires Claiming(s, t)
    ensures ActsAround(s, ClaimStep(s, t, true), t)
  {
  }

  lemma ClaimGoesOn(s: State, t: nat)
    requires Claiming(s, t)
    ensures ThreadOk(ClaimStep(s, t, true), t)
  {
  }

  // ------------------------------------------------------------------ append

  ghost predicate Appending(s: State, t: nat) {
    AtPc(s, t, Append) && IsStart(s.threads[t]) && s.dmu == Some(t)
  }

  lemma AppendFaultRegistry(s: State, t: nat, c: Choice)
    requires Appending(s, t) && c.fault && Bounded(s.registry) && RegistryOk(s) && RowsOk(s) && HistoryOk(s)
    ensures Bounded(AppendStep(s, t, c).registry) && RegistryOk(AppendStep(s, t, c))
  {
    var th, s' := s.threads[t], AppendStep(s, t, c);
    ShrinkingStaysBounded(s.registry, s'.registry);
    PublisherIs(s, t);
    forall id ensures !Publishing(s', id) { }
  }

  lemma AppendFaultOwned(s: State, t: nat, c: Choice)
    requires Appending(s, t) && c.fault && RowsOk(s) && OwnedOk(s) && HistoryOk(s)
    ensures OwnedOk(AppendStep(s, t, c))
  {
    var th, s' := s.threads[t], AppendStep(s, t, c);
    PublisherIs(s, t);
    RowIds(s);
    OthersStayOwned(s, s', th.id);
  }

  lemma OthersStayOwned(s: State, s': State, id: string)
    requires OwnedOk(s) && s'.rows == s.rows && s'.h == s.h && s'.shutdown == s.shutdown
    requires id !in s.rows && (forall x :: x in s.rows ==> s.rows[x].id == x) && forall x :: Publishing(s, x) <==> x == id
    requires s'.registry == s.registry || s'.registry == s.registry - {id}
    ensures OwnedOk(s')
  {
  }

  lemma AppendFaultOthers(s: State, t: nat, c: Choice)
    requires Appending(s, t) && c.fault && RowsOk(s) && EventsOk(s)
    ensures RowsOk(AppendStep(s, t, c)) && EventsOk(AppendStep(s, t, c))
  {
    RowsFrame(s, AppendStep(s, t, c));
    EventsFrame(s, AppendStep(s, t, c));
  }

  lemma AppendFaultHistory(s: State, t: nat, c: Choice)
    requires Appending(s, t) && c.fault && HistoryOk(s)
    ensures HistoryOk(AppendStep(s, t, c))
  {
  }

  lemma AppendFaultDeleted(s: State, t: nat, c: Choice)
    requires Appending(s, t) && c.fault && DeletedOk(s)
    ensures DeletedOk(AppendStep(s, t, c))
  {
  }

  lemma AppendFaultLocks(s: State, t: nat, c: Choice)
    requires Appending(s, t) && c.fault && LocksOk(s) && StartersApart(s)
    ensures LocksOk(AppendStep(s, t, c)) && StartersApart(AppendStep(s, t, c))
  {
    var th, s' := s.threads[t], AppendStep(s, t, c);
    OwnLock(s, t, th.kind.req.from);
    OwnLock(s, t, th.kind.req.to);
    LocksAfter(s, s', t, th.(pc := Withdraw));
    ApartFrame(s, s', t);
  }

  lemma AppendFaultActs(s: State, t: nat, c: Choice)
    requires Appending(s, t) && c.fault && LocksOk(s) && RowsOk(s)
    ensures Acts(s, AppendStep(s, t, c), t)
  {
    OnlyKeepsRoles(s, AppendStep(s, t, c), t);
  }

  lemma AppendFaultGoesOn(s: State, t: nat, c: Choice)
    requires Appending(s, t) && c.fault && RegistryOk(s)
    ensures ThreadOk(AppendStep(s, t, c), t)
  {
  }

  ghost predicate Writing(s: State, t: nat, c: Choice) {
    Appending(s, t) && !c.fault && s.threads[t].id !in s.rows &&
    (forall x :: x in s.rows && Live(s.rows[x]) ==> s.rows[x].to != s.threads[t].run.to) &&
    MayEvict(s.rows[s.threads[t].id := s.threads[t].run], c.evict)
  }

  lemma AppendRegistry(s: State, t: nat, c: Choice)
    requires Writing(s, t, c) && RegistryOk(s) && HistoryOk(s)
    ensures RegistryOk(AppendStep(s, t, c))
  {
  }

  lemma AppendRows(s: State, t: nat, c: Choice)
    requires Writing(s, t, c) && RowsOk(s) && OwnedOk(s)
    ensures RowsOk(AppendStep(s, t, c)) && OwnedOk(AppendStep(s, t, c))
  {
    var th, s' := s.threads[t], AppendStep(s, t, c);
    forall id ensures Publishing(s, id) <==> id == th.id { }
    forall id ensures Publishing(s', id) <==> id == th.id { }
    forall id | id in s'.rows && id != th.id ensures id in s.rows && s'.rows[id] == s.rows[id] { }
  }

  lemma AppendEvents(s: State, t: nat, c: Choice)
    requires Writing(s, t, c) && EventsOk(s)
    ensures EventsOk(AppendStep(s, t, c))
  {
    EventsFrame(s, AppendStep(s, t, c));
  }

  lemma AppendHistory(s: State, t: nat, c: Choice)
    requires Writing(s, t, c) && HistoryOk(s) && RegistryOk(s)
    ensures HistoryOk(AppendStep(s, t, c))
  {
    var th, s' := s.threads[t], AppendStep(s, t, c);
    AppendPublishes(s, t, c);
    assert th.id !in s.h.winner && th.id in s.registry;
    assert s'.h.ident == s.h.ident[th.id := th.run] && th.run.id == th.id;
  }

  lemma AppendPublishes(s: State, t: nat, c: Choice)
    requires Appending(s, t) && !c.fault
    ensures forall id :: Publishing(s, id) <==> id == s.threads[t].id
    ensures forall id :: Publishing(AppendStep(s, t, c), id) <==> id == s.threads[t].id
  {
  }

  lemma AppendDeleted(s: State, t: nat, c: Choice)
    requires Writing(s, t, c) && DeletedOk(s) && HistoryOk(s)
    ensures DeletedOk(AppendStep(s, t, c))
  {
    var th, s' := s.threads[t], AppendStep(s, t, c);
    forall chat | chat in s'.h.deleted ensures chat.1 != "" && Untouched(s', chat) {
      ReadyTouchesNoDeleted(s, th.kind.req, th.run, chat);
      assert Untouched(s, chat);
      forall id | id in s'.rows && RowTouches(s'.rows[id], chat.0, chat.1) ensures Settled(s', id) || s'.shutdown {
        assert id != th.id;
        assert s'.rows[id] == s.rows[id] && Settled(s, id) == Settled(s', id);
      }
    }
  }

  lemma AppendLocks(s: State, t: nat, c: Choice)
    requires Writing(s, t, c) && LocksOk(s) && StartersApart(s)
    ensures LocksOk(AppendStep(s, t, c)) && StartersApart(AppendStep(s, t, c))
  {
    var th, s' := s.threads[t], AppendStep(s, t, c);
    OwnLock(s, t, th.kind.req.from);
    OwnLock(s, t, th.kind.req.to);
    LocksAfter(s, s', t, th.(pc := Activate));
    ApartFrame(s, s', t);
  }

  lemma AppendGrows(s: State, t: nat, c: Choice)
    requires Writing(s, t, c) && RowsOk(s)
    ensures Grows(s, AppendStep(s, t, c))
  {
    OnlyKeepsRoles(s, AppendStep(s, t, c), t);
    AppendHistoryGrows(s, t, c);
  }

  lemma AppendHistoryGrows(s: State, t: nat, c: Choice)
    requires Appending(s, t) && !c.fault
    ensures GrowsHistory(s.h, AppendStep(s, t, c).h)
  {
  }

  lemma AppendActs(s: State, t: nat, c: Choice)
    requires Writing(s, t, c)
    requires HasBoth(s, t, s.threads[t].kind.req.from, s.threads[t].kind.req.to)
    ensures ActsOnRuns(s, AppendStep(s, t, c), t)
  {
  }

  lemma AppendActsAround(s: State, t: nat, c: Choice)
    requires Writing(s, t, c)
    ensures ActsAround(s, AppendStep(s, t, c), t)
  {
  }

  lemma AppendGoesOn(s: State, t: nat, c: Choice)
    requires Writing(s, t, c) && HistoryOk(s)
    ensures ThreadOk(AppendStep(s, t, c), t)
  {
  }

  // ---------------------------------------------------------------- activate

  ghost predicate Activating(s: State, t: nat) {
    AtPc(s, t, Activate) && IsStart(s.threads[t]) && s.dmu == Some(t)
  }

  lemma ActivateBounded(s: State, t: nat, c: Choice)
    requires Activating(s, t) && Bounded(s.registry)
    ensures Bounded(ActivateStep(s, t, c).registry)
  {
    ReplacingStaysBounded(s.registry, s.threads[t].id, HandleOf(s.threads[t].run));
  }

  lemma ActivateRegistry(s: State, t: nat, c: Choice)
    requires Activating(s, t) && RegistryOk(s) && HistoryOk(s)
    ensures RegistryOk(ActivateStep(s, t, c))
  {
    PublisherIs(s, t);
    OwnerInstalled(s, ActivateStep(s, t, c), s.threads[t].id, s.threads[t].run);
  }

  lemma PublisherIs(s: State, t: nat)
    requires s.dmu == Some(t) && t < |s.threads| && HoldsOwners(s.threads[t])
    ensures forall id :: Publishing(s, id) <==> id == s.threads[t].id
  {
  }

  lemma OwnerInstalled(s: State, s': State, id: string, run: Run)
    requires RegistryOk(s) && forall x :: Publishing(s, x) <==> x == id
    requires id in s.h.ident && s.h.ident[id] == run && id in s.h.drawnBy && id !in s.h.withdrawn && id !in s.h.taken
    requires s'.registry == s.registry[id := HandleOf(run)] && s'.h == s.h.(activated := s.h.activated + {id})
    ensures RegistryOk(s')
  {
  }

  lemma ActivateOwned(s: State, t: nat, c: Choice)
    requires Activating(s, t) && RowsOk(s) && OwnedOk(s)
    ensures OwnedOk(ActivateStep(s, t, c))
  {
  }

  lemma ActivateRest(s: State, t: nat, c: Choice)
    requires Activating(s, t) && RowsOk(s) && EventsOk(s)
    ensures RowsOk(ActivateStep(s, t, c)) && EventsOk(ActivateStep(s, t, c))
  {
  }

  lemma ActivateHistory(s: State, t: nat, c: Choice)
    requires Activating(s, t) && HistoryOk(s)
    ensures HistoryOk(ActivateStep(s, t, c))
  {
    var th, s' := s.threads[t], ActivateStep(s, t, c);
    forall id ensures Publishing(s, id) <==> id == th.id { }
  }

  lemma ActivateDeleted(s: State, t: nat, c: Choice)
    requires Activating(s, t) && DeletedOk(s) && HistoryOk(s)
    ensures DeletedOk(ActivateStep(s, t, c))
  {
    var th, s' := s.threads[t], ActivateStep(s, t, c);
    forall chat | chat in s'.h.deleted ensures chat.1 != "" && Untouched(s', chat) {
      ReadyTouchesNoDeleted(s, th.kind.req, th.run, chat);
      assert Untouched(s, chat);
    }
  }

  lemma ActivateLocks(s: State, t: nat, c: Choice)
    requires Activating(s, t) && LocksOk(s) && StartersApart(s)
    ensures LocksOk(ActivateStep(s, t, c)) && StartersApart(ActivateStep(s, t, c))
  {
    var th, s' := s.threads[t], ActivateStep(s, t, c);
    OwnLock(s, t, th.kind.req.from);
    OwnLock(s, t, th.kind.req.to);
    LocksAfter(s, s', t, s'.threads[t]);
    ApartFrame(s, s', t);
  }

  lemma ActivateGrows(s: State, t: nat, c: Choice)
    requires Activating(s, t) && RowsOk(s)
    ensures Grows(s, ActivateStep(s, t, c))
  {
    OnlyKeepsRoles(s, ActivateStep(s, t, c), t);
    ActivateHistoryGrows(s, t, c);
  }

  lemma ActivateHistoryGrows(s: State, t: nat, c: Choice)
    requires t < |s.threads| && IsStart(s.threads[t])
    ensures GrowsHistory(s.h, ActivateStep(s, t, c).h)
  {
  }

  lemma ActivateActs(s: State, t: nat, c: Choice)
    requires Activating(s, t)
    requires HasBoth(s, t, s.threads[t].kind.req.from, s.threads[t].kind.req.to)
    ensures ActsOnRuns(s, ActivateStep(s, t, c), t)
  {
  }

  lemma ActivateActsAround(s: State, t: nat, c: Choice)
    requires Activating(s, t)
    requires HasBoth(s, t, s.threads[t].kind.req.from, s.threads[t].kind.req.to)
    ensures ActsAround(s, ActivateStep(s, t, c), t)
  {
  }

  lemma ActivateGoesOn(s: State, t: nat, c: Choice)
    requires Activating(s, t)
    ensures ThreadOk(ActivateStep(s, t, c), t)
  {
  }

  // ---------------------------------------------------- progress and finish

  /** A step that rewrites one live row, moves its thread, and notes a winner. */
  ghost predicate Rewrites(s: State, s': State, t: nat, c: Choice, row: Run) {
    Only(s, s', t) && SamePublishing(s, s') && HoldsOwners(s.threads[t]) == HoldsOwners(s'.threads[t]) &&
    s.threads[t].Op? && row.id == s.threads[t].id && row.id in s.rows && Live(s.rows[row.id]) &&
    SameRun(row, s.rows[row.id]) && MayEvict(s.rows[row.id := row], c.evict) &&
    s' == s.(threads := s'.threads, rows := s.rows[row.id := row] - c.evict,
             h := s.h.(winner := s'.h.winner, ousted := Ousted(s, c))) &&
    (s'.h.winner == s.h.winner || (!Live(row) && s'.h.winner == s.h.winner[row.id := t])) &&
    (forall p :: Holds(s'.threads[t], p) ==> Holds(s.threads[t], p))
  }

  lemma RewriteRows(s: State, s': State, t: nat, c: Choice, row: Run)
    requires Rewrites(s, s', t, c, row) && RowsOk(s) && OwnedOk(s) && HistoryOk(s)
    ensures RowsOk(s') && OwnedOk(s')
  {
    forall id ensures Publishing(s, id) == Publishing(s', id) { }
    forall id | id in s'.rows && id != row.id ensures id in s.rows && s'.rows[id] == s.rows[id] { }
    assert s.rows[row.id].id == row.id;
    assert Owns(s.registry, s.rows[row.id]) ==> Owns(s.registry, row);
  }

  lemma RewriteHistory(s: State, s': State, t: nat, c: Choice, row: Run)
    requires Rewrites(s, s', t, c, row) && HistoryOk(s) && RowsOk(s) && EventsOk(s) && RegistryOk(s) && DeletedOk(s)
    ensures HistoryOk(s') && EventsOk(s') && RegistryOk(s') && row.id !in s.h.winner
  {
  }

  lemma RewriteDeleted(s: State, s': State, t: nat, c: Choice, row: Run)
    requires Rewrites(s, s', t, c, row) && DeletedOk(s)
    ensures DeletedOk(s')
  {
  }

  lemma RewriteGrows(s: State, s': State, t: nat, c: Choice, row: Run)
    requires Rewrites(s, s', t, c, row) && row.id !in s.h.winner
    ensures Grows(s, s')
  {
  }

  lemma RewriteActs(s: State, s': State, t: nat, c: Choice, row: Run)
    requires Rewrites(s, s', t, c, row) && Grows(s, s')
    ensures Acts(s, s', t)
  {
  }

  lemma RewriteLocks(s: State, s': State, t: nat, c: Choice, row: Run)
    requires Rewrites(s, s', t, c, row) && LocksOk(s) && StartersApart(s)
    ensures LocksOk(s') && StartersApart(s')
  {
  }

  lemma RewriteKeeps(s: State, s': State, t: nat, c: Choice, row: Run)
    requires Global(s) && Rewrites(s, s', t, c, row)
    ensures Global(s') && Acts(s, s', t)
  {
    RewriteRows(s, s', t, c, row);
    RewriteHistory(s, s', t, c, row);
    RewriteDeleted(s, s', t, c, row);
    RewriteGrows(s, s', t, c, row);
    RewriteActs(s, s', t, c, row);
    RewriteLocks(s, s', t, c, row);
  }

  lemma TailRewrites(s: State, t: nat, c: Choice)
    requires AtPc(s, t, Tail) && s.threads[t].kind.Watcher? && LocksOk(s) && RowsOk(s) && HistoryOk(s)
    requires !c.fault && s.threads[t].id in s.rows && Live(s.rows[s.threads[t].id]) && MayEvict(s.rows, c.evict)
    ensures Rewrites(s, TailStep(s, t, c), t, c, s.rows[s.threads[t].id].(detail := c.detail))
  {
  }

  lemma TailGoesOn(s: State, t: nat, c: Choice)
    requires AtPc(s, t, Tail) && s.threads[t].kind.Watcher?
    requires !c.fault && s.threads[t].id in s.rows && Live(s.rows[s.threads[t].id])
    ensures ThreadOk(TailStep(s, t, c), t)
  {
  }

  lemma TailIsQuiet(s: State, t: nat, c: Choice)
    requires AtPc(s, t, Tail) && s.threads[t].kind.Watcher? && LocksOk(s)
    requires c.fault || s.threads[t].id !in s.rows || !Live(s.rows[s.threads[t].id])
    ensures QuietlyOk(s, TailStep(s, t, c), t)
  {
  }

  ghost predicate Finishing(s: State, t: nat, c: Choice) {
    AtPc(s, t, Finish) && Terminal(c.status) && !c.fault && s.threads[t].id in s.rows &&
    Live(s.rows[s.threads[t].id]) &&
    MayEvict(s.rows[s.threads[t].id := Ended(s.rows[s.threads[t].id], c)], c.evict)
  }

  lemma FinishHolds(s: State, t: nat, c: Choice)
    requires Finishing(s, t, c)
    ensures var th, th' := s.threads[t], FinishStep(s, t, c).threads[t];
            SameRole(th, th') && !HoldsOwners(th) && !HoldsOwners(th') && forall p :: Holds(th', p) ==> Holds(th, p)
  {
  }

  lemma FinishRewrites(s: State, t: nat, c: Choice)
    requires Finishing(s, t, c) && LocksOk(s) && RowsOk(s) && HistoryOk(s)
    ensures Rewrites(s, FinishStep(s, t, c), t, c, Ended(s.rows[s.threads[t].id], c))
  {
    FinishHolds(s, t, c);
  }

  lemma FinishGoesOn(s: State, t: nat, c: Choice)
    requires Finishing(s, t, c) && EventsOk(s) && s.threads[t].id !in s.h.winner
    ensures ThreadOk(FinishStep(s, t, c), t)
  {
  }
}
