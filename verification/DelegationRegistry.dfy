/** The in-memory owners of delegations (internal/studio/delegation.go): which run
    holds which target, and who may end it. Each method is one section under
    delegationMu. */
module DelegationRegistry {
  import opened DelegationRuns
  import opened DelegationStore
  import opened Text
  import opened Wrappers

  const MAX_CONCURRENT: nat := 4

  const NO_RUN := Run("", "", "", "", "", "", Other(""), "", "", Detail("", [], [], false), 0, 0)

  // reserved: a batch slot whose child chat has not been created yet
  datatype Handle = Handle(
    from: string, fromSession: string, to: string, toSession: string, batch: string,
    run: Run, reserved: bool)

  type Registry = map<string, Handle>

  function NormalizedSession(sid: string): string {
    if TrimSpace(sid) != "" then TrimSpace(sid) else "default"
  }

  /** The session a batch names in its slots: blank means the default one. */
  function NamedSession(sid: string): string { if TrimSpace(sid) != "" then sid else "default" }

  function SourceSession(h: Handle): string {
    if TrimSpace(h.fromSession) != "" then TrimSpace(h.fromSession) else NormalizedSession(h.run.fromSession)
  }

  /** The entry is the live owner of exactly this run. */
  predicate SameOwner(h: Handle, run: Run) {
    !h.reserved && h.run.id == run.id && h.from == run.from && h.to == run.to &&
    SourceSession(h) == NormalizedSession(run.fromSession) &&
    h.toSession == run.toSession && h.batch == run.batch
  }

  predicate Owns(reg: Registry, run: Run) { run.id in reg && SameOwner(reg[run.id], run) }

  /** The bound on paid work: few runs in all, one for each target project. */
  ghost predicate Bounded(reg: Registry) {
    |reg| <= MAX_CONCURRENT &&
    forall a, b :: a in reg && b in reg && reg[a].to == reg[b].to ==> a == b
  }

  ghost predicate Occupied(reg: Registry, target: string) { exists id :: id in reg && reg[id].to == target }

  ghost predicate MayClaim(reg: Registry, id: string, h: Handle) {
    id !in reg && |reg| < MAX_CONCURRENT && !Occupied(reg, h.to)
  }

  ghost predicate MayReserve(reg: Registry, targets: seq<string>) {
    |reg| + |targets| <= MAX_CONCURRENT &&
    (forall i :: 0 <= i < |targets| ==> targets[i] != "" && !Occupied(reg, targets[i])) &&
    (forall i, j :: 0 <= i < j < |targets| ==> targets[i] != targets[j])
  }

  function Slot(from: string, fromSession: string, batch: string, target: string): Handle {
    Handle(from, fromSession, target, "", batch, NO_RUN, true)
  }

  function WithSlots(reg: Registry, from: string, fromSession: string, batch: string,
                     targets: seq<string>, ids: seq<string>): Registry
    requires |ids| == |targets|
  {
    if targets == [] then reg
    else WithSlots(reg, from, fromSession, batch, targets[..|targets| - 1], ids[..|ids| - 1])
           [ids[|ids| - 1] := Slot(from, fromSession, batch, targets[|targets| - 1])]
  }

  /** The drawn run IDs are new and differ from each other. */
  ghost predicate FreshIds(reg: Registry, ids: seq<string>) {
    (forall i :: 0 <= i < |ids| ==> ids[i] !in reg) &&
    (forall i, j :: 0 <= i < j < |ids| ==> ids[i] != ids[j])
  }

  lemma {:induction false} WithSlotsAdds(reg: Registry, from: string, fromSession: string, batch: string,
                                        targets: seq<string>, ids: seq<string>)
    requires |ids| == |targets| && FreshIds(reg, ids)
    ensures var r := WithSlots(reg, from, fromSession, batch, targets, ids);
            |r| == |reg| + |ids| &&
            (forall id :: id in r <==> id in reg || id in ids) &&
            (forall id :: id in reg ==> r[id] == reg[id]) &&
            (forall i :: 0 <= i < |ids| ==> r[ids[i]] == Slot(from, fromSession, batch, targets[i]))
  {
    if targets != [] {
      var n := |targets| - 1;
      WithSlotsAdds(reg, from, fromSession, batch, targets[..n], ids[..n]);
      assert ids == ids[..n] + [ids[n]];
      assert ids[n] !in ids[..n];
      forall i | 0 <= i < n ensures ids[i] != ids[n] { }
    }
  }

  lemma WithSlotsNext(reg: Registry, from: string, fromSession: string, batch: string,
                      targets: seq<string>, ids: seq<string>, i: nat)
    requires |ids| == |targets| && i < |ids|
    ensures WithSlots(reg, from, fromSession, batch, targets[..i + 1], ids[..i + 1]) ==
            WithSlots(reg, from, fromSession, batch, targets[..i], ids[..i])
              [ids[i] := Slot(from, fromSession, batch, targets[i])]
  {
    assert targets[..i + 1][..i] == targets[..i] && ids[..i + 1][..i] == ids[..i];
  }

  /** A permitted batch reservation keeps the bound. */
  lemma ReservingStaysBounded(reg: Registry, from: string, fromSession: string, batch: string,
                              targets: seq<string>, ids: seq<string>)
    requires Bounded(reg) && MayReserve(reg, targets) && |ids| == |targets| && FreshIds(reg, ids)
    ensures Bounded(WithSlots(reg, from, fromSession, batch, targets, ids))
  {
    WithSlotsAdds(reg, from, fromSession, batch, targets, ids);
    var r := WithSlots(reg, from, fromSession, batch, targets, ids);
    forall i, x | 0 <= i < |ids| && x in reg ensures reg[x].to != targets[i] {
      assert !Occupied(reg, targets[i]);
    }
    forall a, b | a in r && b in r && r[a].to == r[b].to ensures a == b {
      if a in ids && b in ids {
        var i :| 0 <= i < |ids| && ids[i] == a;
        var j :| 0 <= j < |ids| && ids[j] == b;
        assert targets[i] == targets[j];
      }
    }
  }

  lemma ClaimingStaysBounded(reg: Registry, id: string, h: Handle)
    requires Bounded(reg) && MayClaim(reg, id, h)
    ensures Bounded(reg[id := h])
  {
  }

  /** Replacing an entry by one for the same target keeps the bound. */
  lemma ReplacingStaysBounded(reg: Registry, id: string, h: Handle)
    requires Bounded(reg) && id in reg && reg[id].to == h.to
    ensures Bounded(reg[id := h])
  {
  }

  /** A reservation is turned into a live run only by the start it was made for. */
  predicate ReservedFor(reg: Registry, run: Run, h: Handle) {
    run.id in reg && reg[run.id].reserved && reg[run.id].from == h.from &&
    SourceSession(reg[run.id]) == SourceSession(h) && reg[run.id].to == h.to && reg[run.id].batch == h.batch
  }

  ghost predicate MayOwn(reg: Registry, run: Run, h: Handle, reserved: bool) {
    if reserved then ReservedFor(reg, run, h) else MayClaim(reg, run.id, h)
  }

  /** The entry has this chat (or, with no chat named, this project) at either end. */
  predicate Touches(h: Handle, project: string, session: string) {
    (h.to == project && (session == "" || h.toSession == session)) ||
    (h.from == project && (session == "" || SourceSession(h) == session))
  }

  // ------------------------------------------------------- giving an entry back

  /** Without the entry, if it is a reservation. */
  function Released(reg: Registry, id: string): Registry { if id in reg && reg[id].reserved then reg - {id} else reg }

  /** Without those entries that are reservations. */
  function ReleasedAll(reg: Registry, ids: set<string>): Registry {
    map id | id in reg && !(id in ids && reg[id].reserved) :: reg[id]
  }

  /** Releasing what a batch reserved gives back the registry it found. */
  lemma ReleasingUndoesReserving(reg: Registry, from: string, fromSession: string, batch: string,
                                 targets: seq<string>, ids: seq<string>)
    requires |ids| == |targets| && FreshIds(reg, ids)
    ensures ReleasedAll(WithSlots(reg, from, fromSession, batch, targets, ids), set id | id in ids) == reg
  {
    WithSlotsAdds(reg, from, fromSession, batch, targets, ids);
    forall id | id in ids
      ensures id !in reg && WithSlots(reg, from, fromSession, batch, targets, ids)[id].reserved
    {
      var i :| 0 <= i < |ids| && ids[i] == id;
    }
  }

  /** But a slot that has become a run's owner in the meantime stays, whatever is
      released. */
  lemma ReleasingSparesOwners(reg: Registry, ids: set<string>, run: Run)
    ensures Owns(ReleasedAll(reg, ids), run) <==> Owns(reg, run)
  {
  }

  /** Without the run's live owner. */
  function Taken(reg: Registry, run: Run): Registry { if Owns(reg, run) then reg - {run.id} else reg }

  /** An owner can be taken once: afterwards no row of the run finds it, and every other
      run still has its own. */
  lemma TakenOnce(reg: Registry, run: Run, row: Run)
    ensures Owns(reg, run) ==>
              (Owns(Taken(reg, run), row) <==> row.id != run.id && Owns(reg, row))
    ensures Owns(reg, run) && SameRun(row, run) ==> Taken(Taken(reg, run), row) == Taken(reg, run) != reg
  {
    if Owns(reg, run) { assert run.id !in Taken(reg, run); }
  }

  /** A target has one live owner, and that is the owner of one run. */
  lemma OneOwner(reg: Registry, a: Run, b: Run)
    requires Bounded(reg) && Owns(reg, a) && Owns(reg, b) && a.to == b.to
    ensures a.id == b.id && a.from == b.from && a.toSession == b.toSession && a.batch == b.batch
    ensures NormalizedSession(a.fromSession) == NormalizedSession(b.fromSession)
  {
    assert reg[a.id].to == reg[b.id].to;
  }

  datatype Published = Refused | StoreRefused | QueueRefused(evicted: seq<Run>) | Started(evicted: seq<Run>)

  class Owners {
    var delegations: Registry
    const store: DelegationRunStore

    constructor (store: DelegationRunStore)
      ensures delegations == map[] && this.store == store
    {
      delegations := map[];
      this.store := store;
    }

    /** The slot test shared by single starts and reservations. */
    method TargetTaken(target: string) returns (taken: bool)
      ensures taken <==> Occupied(delegations, target)
    {
      var ids := delegations.Keys;
      while ids != {}
        invariant ids <= delegations.Keys
        invariant forall id :: id in delegations && id !in ids ==> delegations[id].to != target
        decreases |ids|
      {
        var id :| id in ids;
        if delegations[id].to == target {
          return true;
        }
        ids := ids - {id};
      }
      return false;
    }

    /** validateDelegationClaimLocked. */
    method ValidateClaim(id: string, h: Handle) returns (ok: bool)
      modifies this`delegations
      ensures ok <==> MayClaim(old(delegations), id, h)
      ensures delegations == if ok then old(delegations)[id := h] else old(delegations)
    {
      if id in delegations || |delegations| >= MAX_CONCURRENT {
        return false;
      }
      var taken := TargetTaken(h.to);
      if taken {
        return false;
      }
      delegations := delegations[id := h];
      return true;
    }

    /** The checks of reserveDelegationBatchForSession on its targets. */
    method TargetsFree(targets: seq<string>) returns (free: bool)
      ensures free <==> (forall i :: 0 <= i < |targets| ==> targets[i] != "" && !Occupied(delegations, targets[i])) &&
                        (forall i, j :: 0 <= i < j < |targets| ==> targets[i] != targets[j])
    {
      var seen: set<string> := {};
      var i := 0;
      while i < |targets|
        invariant 0 <= i <= |targets|
        invariant seen == set j | 0 <= j < i :: targets[j]
        invariant forall j :: 0 <= j < i ==> targets[j] != "" && !Occupied(delegations, targets[j])
        invariant forall j, k :: 0 <= j < k < i ==> targets[j] != targets[k]
      {
        if targets[i] == "" || targets[i] in seen {
          return false;
        }
        seen := seen + {targets[i]};
        var taken := TargetTaken(targets[i]);
        if taken {
          return false;
        }
        i := i + 1;
      }
      return true;
    }

    /** reserveDelegationBatchForSession: every target or none. The run IDs are
        drawn until they are new. */
    method ReserveBatch(from: string, fromSession: string, batch: string, targets: seq<string>, ids: seq<string>)
      returns (ok: bool)
      requires |ids| == |targets| && FreshIds(delegations, ids)
      modifies this`delegations
      ensures ok <==> MayReserve(old(delegations), targets)
      ensures delegations ==
        if ok then WithSlots(old(delegations), from, NamedSession(fromSession), batch, targets, ids)
        else old(delegations)
    {
      if |delegations| + |targets| > MAX_CONCURRENT {
        return false;
      }
      ok := TargetsFree(targets);
      if !ok {
        return false;
      }
      var i := 0;
      while i < |targets|
        invariant 0 <= i <= |targets|
        invariant delegations ==
          WithSlots(old(delegations), from, NamedSession(fromSession), batch, targets[..i], ids[..i])
      {
        WithSlotsNext(old(delegations), from, NamedSession(fromSession), batch, targets, ids, i);
        delegations := delegations[ids[i] := Slot(from, NamedSession(fromSession), batch, targets[i])];
        i := i + 1;
      }
      assert targets[..i] == targets && ids[..i] == ids;
    }

    /** releaseDelegationReservation. */
    method ReleaseReservation(id: string)
      modifies this`delegations
      ensures delegations == Released(old(delegations), id)
    {
      if id in delegations && delegations[id].reserved {
        delegations := delegations - {id};
      }
    }

    /** What StartDelegationBatch defers: whatever did not become live is released. */
    method ReleaseBatch(ids: set<string>)
      modifies this`delegations
      ensures delegations == ReleasedAll(old(delegations), ids)
    {
      var todo := ids;
      while todo != {}
        invariant todo <= ids && delegations == ReleasedAll(old(delegations), ids - todo)
        decreases |todo|
      {
        var id :| id in todo;
        ReleaseReservation(id);
        todo := todo - {id};
      }
    }

    /** takeDelegationOwner and releaseDelegationOwner: at most one caller ever
        sees `taken` for one run. */
    method TakeOwner(run: Run) returns (taken: bool)
      modifies this`delegations
      ensures taken <==> Owns(old(delegations), run)
      ensures delegations == Taken(old(delegations), run)
    {
      taken := run.id in delegations && SameOwner(delegations[run.id], run);
      if taken {
        delegations := delegations - {run.id};
      }
    }

    /** The start of publishAndStartDelegation: claim a slot, or check the reservation. */
    method ClaimOrCheck(run: Run, h: Handle, reserved: bool) returns (ok: bool)
      modifies this`delegations
      ensures ok <==> MayOwn(old(delegations), run, h, reserved)
      ensures delegations == if ok && !reserved then old(delegations)[run.id := h] else old(delegations)
    {
      if reserved {
        return ReservedFor(delegations, run, h);
      }
      ok := ValidateClaim(run.id, h);
    }

    /** Writes the run's row; the result is what retention dropped. */
    method Record(run: Run, disk: Disk) returns (evicted: Option<seq<Run>>)
      requires store.Valid() && Live(run)
      modifies store
      ensures store.Valid()
      ensures evicted.None? ==> store.rows == old(store.rows)
      ensures evicted.Some? ==> SavedAs(Table(old(store.rows))[run.id := run], Table(store.rows), evicted.value) &&
                                run.id in Table(store.rows) && Table(store.rows)[run.id] == run
    {
      var appended := store.Append(run, disk);
      return if appended.Stored? then Some(appended.evicted) else None;
    }

    /** Its first half: the claim is given back if the row cannot be written. */
    method ClaimAndRecord(run: Run, h: Handle, reserved: bool, disk: Disk)
      returns (claimed: bool, evicted: Option<seq<Run>>)
      requires store.Valid() && Live(run)
      modifies this`delegations, store
      ensures store.Valid() && (claimed <==> MayOwn(old(delegations), run, h, reserved))
      ensures !claimed ==> evicted.None?
      ensures evicted.None? ==> delegations == old(delegations) && store.rows == old(store.rows)
      ensures evicted.Some? ==> delegations == if reserved then old(delegations) else old(delegations)[run.id := h]
      ensures evicted.Some? ==> SavedAs(Table(old(store.rows))[run.id := run], Table(store.rows), evicted.value) &&
                                run.id in Table(store.rows) && Table(store.rows)[run.id] == run
    {
      claimed := ClaimOrCheck(run, h, reserved);
      if !claimed {
        return false, None;
      }
      evicted := Record(run, disk);
      if evicted.None? && !reserved {
        delegations := delegations - {run.id};
      }
    }

    /** publishAndStartDelegation: claim or check the reservation, write the row,
        install the owner, start the child. `mayStart` is the child queue's answer. */
    method PublishAndStart(run: Run, h: Handle, reserved: bool, mayStart: bool, disk: Disk) returns (r: Published)
      requires store.Valid() && Live(run)
      modifies this`delegations, store
      ensures store.Valid()
      ensures r.Refused? <==> !MayOwn(old(delegations), run, h, reserved)
      ensures r.Refused? || r.StoreRefused? ==> delegations == old(delegations) && store.rows == old(store.rows)
      ensures r.QueueRefused? || r.Started? ==>
                delegations == old(delegations)[run.id := h.(run := run, reserved := false)] &&
                SavedAs(Table(old(store.rows))[run.id := run], Table(store.rows), r.evicted) &&
                run.id in Table(store.rows) && Table(store.rows)[run.id] == run
      ensures r.Started? ==> mayStart
      ensures r.QueueRefused? ==> !mayStart
    {
      var claimed, evicted := ClaimAndRecord(run, h, reserved, disk);
      if !claimed {
        return Refused;
      }
      if evicted.None? {
        return StoreRefused;
      }
      delegations := delegations[run.id := h.(run := run, reserved := false)];
      return if mayStart then Started(evicted.value) else QueueRefused(evicted.value);
    }

    /** The first half of cancelDelegationsForSession: the runs to cancel. */
    method RunsTouching(project: string, session: string) returns (found: set<string>)
      ensures found == set id | id in delegations && Touches(delegations[id], project, session)
    {
      found := {};
      var ids := delegations.Keys;
      while ids != {}
        invariant ids <= delegations.Keys
        invariant found == set id | id in delegations && id !in ids && Touches(delegations[id], project, session)
        decreases |ids|
      {
        var id :| id in ids;
        if Touches(delegations[id], project, session) {
          found := found + {id};
        }
        ids := ids - {id};
      }
    }
  }
}
