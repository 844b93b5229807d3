/** The operations on the durable table (internal/studio/delegation_runs.go).
    Every one of them runs under the store lock: load, change, save. */
module DelegationStore {
  import opened DelegationRuns
  import opened Wrappers

  /** Whether this operation's read and write of the file succeed. */
  datatype Disk = Disk(readable: bool, writable: bool)

  datatype Appended = Stored(evicted: seq<Run>) | DuplicateId | TargetBusy(other: string) | AppendFault

  // attempt: the terminal row that could not be written, for the caller to stop by
  datatype Finished =
    | Changed(row: Run, evicted: seq<Run>)
    | AlreadyTerminal(row: Run)
    | NotFound
    | InvalidStatus
    | FinishFault(attempt: Option<Run>)

  datatype Updated = Patched(evicted: seq<Run>) | NoLiveRow | UpdateFault

  predicate UniqueIds(rows: seq<Run>) { forall i, j :: 0 <= i < j < |rows| ==> rows[i].id != rows[j].id }

  lemma {:induction false} CountedOnce(rows: seq<Run>, r: Run)
    requires UniqueIds(rows) && r in rows
    ensures multiset(rows)[r] == 1
  {
    var last := rows[|rows| - 1];
    assert rows == rows[..|rows| - 1] + [last];
    if r in rows[..|rows| - 1] { CountedOnce(rows[..|rows| - 1], r); }
  }

  lemma CountedTwice(rows: seq<Run>, i: nat, j: nat)
    requires i < j < |rows| && rows[i] == rows[j]
    ensures multiset(rows)[rows[i]] >= 2
  {
    assert rows == rows[..j] + rows[j..];
    assert rows[..j][i] in multiset(rows[..j]) && rows[j..][0] in multiset(rows[j..]);
  }

  /** The rows by run ID. */
  ghost function Table(rows: seq<Run>): map<string, Run>
    requires UniqueIds(rows)
  {
    map r | r in rows :: r.id := r
  }

  lemma NotInTable(rows: seq<Run>, id: string)
    requires UniqueIds(rows) && forall i :: 0 <= i < |rows| ==> rows[i].id != id
    ensures id !in Table(rows)
  {
  }

  /** What holds of every row holds of the table. */
  lemma NoLiveInTable(rows: seq<Run>, to: string)
    requires UniqueIds(rows) && forall i :: 0 <= i < |rows| && Live(rows[i]) ==> rows[i].to != to
    ensures forall id :: id in Table(rows) && Live(Table(rows)[id]) ==> Table(rows)[id].to != to
  {
  }

  lemma InTable(rows: seq<Run>, r: Run)
    requires UniqueIds(rows) && r in rows
    ensures r.id in Table(rows) && Table(rows)[r.id] == r
  {
  }

  ghost function Ids(rows: seq<Run>): set<string> { set r | r in rows :: r.id }

  lemma SplitRows(rows: seq<Run>, kept: seq<Run>, evicted: seq<Run>)
    requires UniqueIds(rows) && multiset(kept) + multiset(evicted) == multiset(rows)
    ensures forall r :: r in rows <==> r in kept || r in evicted
    ensures forall r :: r in kept ==> r !in evicted
  {
    forall r ensures r in rows <==> r in kept || r in evicted {
      assert r in rows <==> r in multiset(rows);
    }
    forall r | r in kept ensures r !in evicted {
      CountedOnce(rows, r);
      assert r in multiset(kept);
    }
  }

  lemma SplitStaysUnique(rows: seq<Run>, kept: seq<Run>, evicted: seq<Run>)
    requires UniqueIds(rows) && multiset(kept) + multiset(evicted) == multiset(rows)
    ensures UniqueIds(kept)
  {
    SplitRows(rows, kept, evicted);
    forall i, j | 0 <= i < j < |kept| ensures kept[i].id != kept[j].id {
      assert kept[i] in rows && kept[j] in rows;
      if kept[i] == kept[j] {
        CountedTwice(kept, i, j);
        CountedOnce(rows, kept[i]);
        assert false;
      }
    }
  }

  /** Retention takes the evicted IDs out of the table and touches nothing else. */
  lemma EvictionTable(rows: seq<Run>, kept: seq<Run>, evicted: seq<Run>)
    requires UniqueIds(rows) && multiset(kept) + multiset(evicted) == multiset(rows)
    ensures UniqueIds(kept) && Table(kept) == Table(rows) - Ids(evicted)
  {
    SplitRows(rows, kept, evicted);
    SplitStaysUnique(rows, kept, evicted);
    forall id | id in Table(rows) ensures id in Table(kept) <==> id !in Ids(evicted) {
      var r := Table(rows)[id];
      assert r in rows;
    }
    forall id | id in Table(kept) ensures id in Table(rows) {
      assert Table(kept)[id] in rows;
    }
  }

  lemma ReplaceRow(rows: seq<Run>, i: nat, r: Run)
    requires UniqueIds(rows) && i < |rows| && r.id == rows[i].id
    ensures UniqueIds(rows[i := r]) && Table(rows[i := r]) == Table(rows)[r.id := r]
  {
    var rows' := rows[i := r];
    forall j | 0 <= j < |rows| && j != i ensures rows'[j] == rows[j] { }
    assert rows'[i] in rows' && rows[i] in rows;
    forall x ensures x in rows' <==> x == r || (x in rows && x != rows[i]) {
      if x in rows && x != rows[i] {
        var j :| 0 <= j < |rows| && rows[j] == x;
        assert rows'[j] == x;
      }
    }
  }

  lemma AddRow(rows: seq<Run>, r: Run)
    requires UniqueIds(rows) && forall i :: 0 <= i < |rows| ==> rows[i].id != r.id
    ensures UniqueIds(rows + [r]) && Table(rows + [r]) == Table(rows)[r.id := r]
  {
  }

  /** What a successful save turns a changed table into. */
  ghost predicate SavedAs(changed: map<string, Run>, after: map<string, Run>, evicted: seq<Run>) {
    after == changed - Ids(evicted) &&
    (forall e :: e in evicted ==> !Live(e)) &&
    (forall e :: e in evicted ==> e.id in changed && changed[e.id] == e)
  }

  lemma EvictedAreRows(runs: seq<Run>, kept: seq<Run>, evicted: seq<Run>)
    requires multiset(kept) + multiset(evicted) == multiset(runs)
    ensures forall e :: e in evicted ==> e in runs
  {
    forall e | e in evicted ensures e in runs {
      assert e in multiset(kept) + multiset(evicted);
    }
  }

  lemma EvictedAreInTable(runs: seq<Run>, evicted: seq<Run>)
    requires UniqueIds(runs) && forall e :: e in evicted ==> e in runs
    ensures forall e :: e in evicted ==> e.id in Table(runs) && Table(runs)[e.id] == e
  {
  }

  lemma RetentionSaves(runs: seq<Run>, cut: nat, kept: seq<Run>, evicted: seq<Run>)
    requires UniqueIds(runs) && CutAt(SortNewest(runs), cut, kept, evicted)
    ensures UniqueIds(kept) && SavedAs(Table(runs), Table(kept), evicted)
  {
    RetentionMeaning(runs, cut, kept, evicted);
    RemovedSaves(runs, kept, evicted);
  }

  lemma RemovedSaves(runs: seq<Run>, kept: seq<Run>, evicted: seq<Run>)
    requires UniqueIds(runs) && multiset(kept) + multiset(evicted) == multiset(runs)
    requires forall i :: 0 <= i < |evicted| ==> !Live(evicted[i])
    ensures UniqueIds(kept) && SavedAs(Table(runs), Table(kept), evicted)
  {
    EvictionTable(runs, kept, evicted);
    EvictedAreRows(runs, kept, evicted);
    EvictedAreInTable(runs, evicted);
  }

  /** A row left over from a process that died. */
  function Interrupted(r: Run, now: int): (s: Run)
    ensures !Live(s) && SameRun(s, r) && (!Live(r) ==> s == r)
  {
    if Live(r) then
      r.(status := Stopped, errorType := "cancelled",
         error := "Gokin Studio closed before this delegation finished", completedAt := now)
    else r
  }

  /** `after` is `before` with every row interrupted, short of evicted rows. */
  ghost predicate AllInterrupted(before: map<string, Run>, after: map<string, Run>, now: int) {
    forall id :: id in after ==> id in before && after[id] == Interrupted(before[id], now)
  }

  lemma InterruptTable(rows: seq<Run>, runs: seq<Run>, now: int)
    requires UniqueIds(rows) && UniqueIds(runs) && |rows| == |runs|
    requires forall j :: 0 <= j < |runs| ==> runs[j] == Interrupted(rows[j], now)
    ensures Table(runs).Keys == Table(rows).Keys && AllInterrupted(Table(rows), Table(runs), now)
  {
    forall id | id in Table(runs) ensures id in Table(rows) && Table(runs)[id] == Interrupted(Table(rows)[id], now) {
      var j :| 0 <= j < |runs| && runs[j] == Table(runs)[id];
      assert rows[j] in rows && rows[j].id == id;
    }
    forall id | id in Table(rows) ensures id in Table(runs) {
      var j :| 0 <= j < |rows| && rows[j] == Table(rows)[id];
      assert runs[j] in runs && runs[j].id == id;
    }
  }

  /** The loop of reconcileInterruptedDelegationRuns over the loaded rows. */
  method InterruptEach(rows: seq<Run>, now: int) returns (runs: seq<Run>, changed: nat)
    requires UniqueIds(rows)
    ensures UniqueIds(runs) && |runs| == |rows|
    ensures forall j :: 0 <= j < |runs| ==> runs[j] == Interrupted(rows[j], now)
    ensures changed == 0 ==> runs == rows
  {
    runs, changed := rows, 0;
    var i := 0;
    while i < |runs|
      invariant 0 <= i <= |runs| == |rows| && UniqueIds(runs)
      invariant forall j :: 0 <= j < i ==> runs[j] == Interrupted(rows[j], now)
      invariant runs[i..] == rows[i..]
      invariant changed == 0 ==> runs == rows
    {
      assert runs[i] == runs[i..][0] == rows[i];
      if Live(runs[i]) {
        runs := runs[i := Interrupted(runs[i], now)];
        changed := changed + 1;
      }
      i := i + 1;
    }
  }

  method InterruptLive(rows: seq<Run>, now: int) returns (runs: seq<Run>, changed: nat)
    requires UniqueIds(rows)
    ensures UniqueIds(runs) && Table(runs).Keys == Table(rows).Keys
    ensures AllInterrupted(Table(rows), Table(runs), now)
    ensures forall j :: 0 <= j < |runs| ==> !Live(runs[j])
    ensures changed == 0 ==> runs == rows
  {
    runs, changed := InterruptEach(rows, now);
    InterruptTable(rows, runs, now);
  }

  /** The row has the run's ID, or is live for the same target. */
  predicate ClashesWith(row: Run, run: Run) {
    row.id == run.id || (Live(row) && row.to != "" && row.to == run.to)
  }

  ghost predicate Clashes(rows: seq<Run>, run: Run) { exists j :: 0 <= j < |rows| && ClashesWith(rows[j], run) }

  /** The loop of appendDelegationRun: the first row that clashes. */
  method Clash(rows: seq<Run>, run: Run) returns (other: Option<Run>)
    ensures other.Some? <==> Clashes(rows, run)
    ensures other.Some? ==> other.value in rows && ClashesWith(other.value, run)
  {
    var i := 0;
    while i < |rows|
      invariant 0 <= i <= |rows|
      invariant forall j :: 0 <= j < i ==> !ClashesWith(rows[j], run)
    {
      if rows[i].id == run.id || (Live(rows[i]) && rows[i].to != "" && rows[i].to == run.to) {
        return Some(rows[i]);
      }
      i := i + 1;
    }
    return None;
  }

  /** The rows with new detail in row `i`. */
  function Patching(rows: seq<Run>, i: nat, patch: Detail -> Detail): seq<Run>
    requires i < |rows|
  {
    rows[i := rows[i].(detail := patch(rows[i].detail))]
  }

  /** The live row with this ID may take its new detail. */
  ghost predicate Patchable(bytes: Run -> nat, rows: seq<Run>, id: string, patch: Detail -> Detail) {
    exists i ::
      0 <= i < |rows| && rows[i].id == id && Live(rows[i]) && Fits(bytes, Having(true, Patching(rows, i, patch)))
  }

  lemma LiveRowsFit(bytes: Run -> nat, rows: seq<Run>)
    requires Fits(bytes, rows)
    ensures Fits(bytes, Having(true, rows))
  {
    assert rows[..|rows|] == rows && rows[|rows|..] == [] && rows + [] == rows && rows[0..] == rows;
    EarlierCutFits(bytes, rows, 0, |rows|);
    assert rows[..0] + Having(true, rows) == Having(true, rows);
  }

  lemma HavingAround(live: bool, rows: seq<Run>, i: nat, x: Run)
    requires i < |rows|
    ensures Having(live, rows[i := x]) == Having(live, rows[..i]) + Having(live, [x]) + Having(live, rows[i + 1..])
  {
    assert rows[i := x] == rows[..i] + [x] + rows[i + 1..];
    HavingConcat(live, rows[..i] + [x], rows[i + 1..]);
    HavingConcat(live, rows[..i], [x]);
  }

  lemma FewerFit(bytes: Run -> nat, a: seq<Run>, m: seq<Run>, b: seq<Run>)
    requires Fits(bytes, a + m + b)
    ensures Fits(bytes, a + b)
  {
    RowBytesConcat(bytes, a + m, b);
    RowBytesConcat(bytes, a, m);
    RowBytesConcat(bytes, a, b);
  }

  /** Ending a run never needs more room than there is: what counts is the live rows. */
  lemma EndingFits(bytes: Run -> nat, rows: seq<Run>, i: nat, r: Run)
    requires Fits(bytes, rows) && i < |rows| && !Live(r)
    ensures Fits(bytes, Having(true, rows[i := r]))
  {
    LiveRowsFit(bytes, rows);
    HavingAround(true, rows, i, rows[i]);
    HavingAround(true, rows, i, r);
    assert rows[i := rows[i]] == rows;
    FewerFit(bytes, Having(true, rows[..i]), Having(true, [rows[i]]), Having(true, rows[i + 1..]));
    assert Having(true, [r]) == [] && Having(true, rows[..i]) + [] == Having(true, rows[..i]);
  }

  class DelegationRunStore {
    var rows: seq<Run>
    const bytes: Run -> nat   // length of one row's encoding

    constructor (bytes: Run -> nat)
      ensures Valid() && rows == [] && this.bytes == bytes
    {
      rows := [];
      this.bytes := bytes;
    }

    /** What a save leaves behind keeps both limits. */
    ghost predicate Valid() reads this { UniqueIds(rows) && Fits(bytes, rows) }

    /** saveDelegationRunsRaw: applies retention, then replaces the file. A failed
        save leaves the old file. */
    method Save(runs: seq<Run>, disk: Disk) returns (ok: bool, evicted: seq<Run>)
      requires UniqueIds(runs)
      modifies this
      ensures !ok ==> rows == old(rows)
      ensures ok ==> Valid() && SavedAs(Table(runs), Table(rows), evicted)
      ensures ok ==> Retains(bytes, runs, rows, evicted)
      ensures ok <==> disk.writable && Fits(bytes, Having(true, runs))
    {
      var fitted := FitDelegationRuns(bytes, runs);
      if fitted.LiveRowsTooLarge? || !disk.writable {
        return false, [];
      }
      ghost var cut :| CutAt(SortNewest(runs), cut, fitted.kept, fitted.evicted);
      RetentionSaves(runs, cut, fitted.kept, fitted.evicted);
      rows := fitted.kept;
      return true, fitted.evicted;
    }

    /** The last part of appendDelegationRun: the new row, then retention. */
    method Add(run: Run, disk: Disk) returns (ok: bool, evicted: seq<Run>)
      requires Valid() && forall j :: 0 <= j < |rows| ==> rows[j].id != run.id
      modifies this
      ensures Valid() && (!ok ==> rows == old(rows))
      ensures ok ==> run.id !in Table(old(rows)) && SavedAs(Table(old(rows))[run.id := run], Table(rows), evicted)
      ensures ok <==> disk.writable && Fits(bytes, Having(true, old(rows) + [run]))
    {
      AddRow(rows, run);
      NotInTable(rows, run.id);
      ok, evicted := Save(rows + [run], disk);
    }

    /** appendDelegationRun. */
    method Append(run: Run, disk: Disk) returns (r: Appended)
      requires Valid()
      modifies this
      ensures Valid()
      ensures r.Stored? <==> disk == Disk(true, true) && !Clashes(old(rows), run) &&
                             Fits(bytes, Having(true, old(rows) + [run]))
      ensures !r.Stored? ==> rows == old(rows)
      ensures r.Stored? ==> run.id !in Table(old(rows)) &&
                            SavedAs(Table(old(rows))[run.id := run], Table(rows), r.evicted)
      ensures r.Stored? && Live(run) ==> run.id in Table(rows) && Table(rows)[run.id] == run
      ensures r.Stored? && run.to != "" ==> forall id :: id in Table(old(rows)) && Live(Table(old(rows))[id]) ==>
                Table(old(rows))[id].to != run.to
      ensures r.DuplicateId? ==> run.id in Table(rows)
      ensures r.TargetBusy? ==> exists id :: id in Table(rows) && Live(Table(rows)[id]) && Table(rows)[id].to == run.to
    {
      if !disk.readable {
        return AppendFault;
      }
      var clash := Clash(rows, run);
      if clash.Some? {
        InTable(rows, clash.value);
        return if clash.value.id == run.id then DuplicateId else TargetBusy(clash.value.id);
      }
      assert forall j :: 0 <= j < |rows| ==> !ClashesWith(rows[j], run);
      if run.to != "" { NoLiveInTable(rows, run.to); }
      var ok, evicted := Add(run, disk);
      if !ok {
        return AppendFault;
      }
      return Stored(evicted);
    }

    /** Writes a row that has become terminal: there is always room for it. */
    method Close(i: nat, updated: Run, disk: Disk) returns (r: Finished)
      requires Valid() && i < |rows| && updated.id == rows[i].id && !Live(updated)
      modifies this
      ensures Valid()
      ensures if disk.writable then r.Changed? && r.row == updated &&
                SavedAs(Table(old(rows))[updated.id := updated], Table(rows), r.evicted)
              else r == FinishFault(Some(updated)) && rows == old(rows)
    {
      ReplaceRow(rows, i, updated);
      EndingFits(bytes, rows, i, updated);
      var ok, evicted := Save(rows[i := updated], disk);
      return if ok then Changed(updated, evicted) else FinishFault(Some(updated));
    }

    /** finishDelegationRun: a row that is already terminal is refused; a live one is
        always ended if the disk works, whatever retention has to drop for it. */
    method Finish(id: string, status: Status, errorType: string, error: string, patch: Detail -> Detail,
                  now: int, disk: Disk) returns (r: Finished)
      requires Valid()
      modifies this
      ensures Valid()
      ensures r.InvalidStatus? <==> !Terminal(status)
      ensures r.Changed? <==> Terminal(status) && disk == Disk(true, true) && id in Table(old(rows)) &&
                              Live(Table(old(rows))[id])
      ensures !r.Changed? ==> rows == old(rows)
      ensures r.Changed? ==> id in Table(old(rows)) && Live(Table(old(rows))[id]) &&
                             SameRun(r.row, Table(old(rows))[id]) && r.row.status == status &&
                             r.row.completedAt == now &&
                             r.row.errorType == (if errorType != "" then errorType else Table(old(rows))[id].errorType) &&
                             r.row.error == (if error != "" then error else Table(old(rows))[id].error) &&
                             r.row.detail == patch(Table(old(rows))[id].detail) &&
                             SavedAs(Table(old(rows))[id := r.row], Table(rows), r.evicted)
      ensures r.AlreadyTerminal? ==> id in Table(rows) && Table(rows)[id] == r.row && !Live(r.row)
      ensures r.NotFound? ==> id !in Table(rows)
      ensures Terminal(status) && disk.readable && id in Table(old(rows)) && !Live(Table(old(rows))[id]) ==>
                r.AlreadyTerminal?
      ensures Terminal(status) && disk.readable && id !in Table(old(rows)) ==> r.NotFound?
    {
      if !Terminal(status) {
        return InvalidStatus;
      }
      if !disk.readable {
        return FinishFault(None);
      }
      var i := 0;
      while i < |rows|
        invariant 0 <= i <= |rows| && rows == old(rows)
        invariant forall j :: 0 <= j < i ==> rows[j].id != id
      {
        assert rows[i] in rows && rows[i].id in Table(rows) && Table(rows)[rows[i].id] == rows[i];
        if rows[i].id == id {
          if Terminal(rows[i].status) {
            return AlreadyTerminal(rows[i]);
          }
          var updated := rows[i].(
            status := status, completedAt := now,
            errorType := if errorType != "" then errorType else rows[i].errorType,
            error := if error != "" then error else rows[i].error,
            detail := patch(rows[i].detail));
          r := Close(i, updated, disk);
          return;
        }
        i := i + 1;
      }
      return NotFound;
    }

    /** updateDelegationRunProgress: terminal rows are left alone. */
    method UpdateProgress(id: string, patch: Detail -> Detail, disk: Disk) returns (r: Updated)
      requires Valid()
      modifies this
      ensures Valid()
      ensures r.Patched? <==> disk == Disk(true, true) && Patchable(bytes, old(rows), id, patch)
      ensures !r.Patched? ==> rows == old(rows)
      ensures r.NoLiveRow? <==> disk.readable && (id in Table(old(rows)) ==> !Live(Table(old(rows))[id]))
      ensures r.Patched? ==> id in Table(old(rows)) && Live(Table(old(rows))[id])
      ensures r.Patched? ==>
        SavedAs(Table(old(rows))[id := Table(old(rows))[id].(detail := patch(Table(old(rows))[id].detail))],
                Table(rows), r.evicted)
    {
      if !disk.readable {
        return UpdateFault;
      }
      var i := 0;
      while i < |rows|
        invariant 0 <= i <= |rows| && rows == old(rows)
        invariant forall j :: 0 <= j < i ==> rows[j].id != id || !Live(rows[j])
      {
        assert rows[i] in rows && rows[i].id in Table(rows) && Table(rows)[rows[i].id] == rows[i];
        if rows[i].id == id && Live(rows[i]) {
          var updated := rows[i].(detail := patch(rows[i].detail));
          ReplaceRow(rows, i, updated);
          var ok, evicted := Save(rows[i := updated], disk);
          return if ok then Patched(evicted) else UpdateFault;
        }
        i := i + 1;
      }
      if id in Table(rows) {
        assert Table(rows)[id] in rows;
      }
      return NoLiveRow;
    }

    /** loadDelegationRun: an unreadable file is told apart from an absent row. */
    method Load(id: string, disk: Disk) returns (readable: bool, found: Option<Run>)
      requires Valid()
      ensures readable == disk.readable
      ensures readable ==> (found.Some? <==> id in Table(rows))
      ensures readable && found.Some? ==> found.value == Table(rows)[id]
    {
      if !disk.readable {
        return false, None;
      }
      var i := 0;
      while i < |rows|
        invariant 0 <= i <= |rows|
        invariant forall j :: 0 <= j < i ==> rows[j].id != id
      {
        if rows[i].id == id {
          assert rows[i] in rows;
          return true, Some(rows[i]);
        }
        i := i + 1;
      }
      return true, None;
    }

    /** reconcileInterruptedDelegationRuns: after a crash no row is left live, and
        rows that had finished keep their outcome. */
    method Reconcile(now: int, disk: Disk) returns (ok: bool, changed: nat, evicted: seq<Run>)
      requires Valid()
      modifies this
      ensures Valid()
      ensures !ok || changed == 0 ==> rows == old(rows)
      ensures ok ==> AllInterrupted(Table(old(rows)), Table(rows), now)
      ensures ok ==> Table(rows).Keys == Table(old(rows)).Keys - Ids(evicted)
      ensures disk == Disk(true, true) ==> ok
    {
      changed, evicted := 0, [];
      if !disk.readable {
        return false, 0, [];
      }
      var runs;
      runs, changed := InterruptLive(rows, now);
      if changed == 0 {
        return true, 0, [];
      }
      HavingUniform(false, runs);
      ok, evicted := Save(runs, disk);
    }
  }
}
