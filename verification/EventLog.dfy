/** The log of recent events (internal/studio/event_log.go, event_log_disk.go): a ring
    of fixed size that merges a repeated event into the newest entry. */
module EventLog {
  const CAPACITY: nat := 500
  const WINDOW: int := 2000            // milliseconds
  const DISK_BYTES: nat := 0x10_0000   // 1 MiB

  datatype Entry = Entry(time: int, level: string, source: string, message: string, count: int)

  const BLANK := Entry(0, "", "", "", 0)

  /** What the ring compares: the three texts joined by NUL characters. */
  function Key(e: Entry): string { e.level + "\0" + e.source + "\0" + e.message }

  predicate SameEvent(a: Entry, b: Entry) { a.level == b.level && a.source == b.source && a.message == b.message }

  // ------------------------------------------------------------ unbounded log

  function Merged(all: seq<Entry>, now: int): seq<Entry>
    requires all != []
  {
    var last := all[|all| - 1];
    all[|all| - 1 := last.(time := now, count := (if last.count == 0 then 1 else last.count) + 1)]
  }

  /** Logging into an unbounded list: an event with the newest entry's key, within the
      window, is merged into it. A replayed entry (`live` is false) is never merged
      into. */
  function Appended(all: seq<Entry>, e: Entry, live: bool): seq<Entry> {
    if Repeats(all, e, live) then Merged(all, e.time) else all + [e]
  }

  predicate Repeats(all: seq<Entry>, e: Entry, live: bool) {
    live && all != [] && Key(all[|all| - 1]) == Key(e) && e.time - all[|all| - 1].time <= WINDOW
  }

  function Last(all: seq<Entry>): seq<Entry> { if |all| <= CAPACITY then all else all[|all| - CAPACITY..] }

  function Sum(es: seq<Entry>): int { if es == [] then 0 else Sum(es[..|es| - 1]) + es[|es| - 1].count }

  lemma {:induction false} SumConcat(a: seq<Entry>, b: seq<Entry>)
    ensures Sum(a + b) == Sum(a) + Sum(b)
  {
    if b == [] {
      assert a + b == a;
    } else {
      assert (a + b)[..|a + b| - 1] == a + b[..|b| - 1];
      SumConcat(a, b[..|b| - 1]);
    }
  }

  lemma SumOneMore(all: seq<Entry>, e: Entry)
    ensures Sum(all + [e]) == Sum(all) + e.count
  {
  }

  /** Every call counts once, merged or not. */
  lemma EachCallCounts(all: seq<Entry>, e: Entry, live: bool)
    requires e.count == 1 && (live && all != [] ==> all[|all| - 1].count != 0)
    ensures Sum(Appended(all, e, live)) == Sum(all) + 1
  {
    if Repeats(all, e, live) { MergingCounts(all, e.time); } else { SumOneMore(all, e); }
  }

  lemma MergingCounts(all: seq<Entry>, now: int)
    requires all != [] && all[|all| - 1].count != 0
    ensures Sum(Merged(all, now)) == Sum(all) + 1
  {
    assert Merged(all, now)[..|all| - 1] == all[..|all| - 1];
  }

  /** What the ring shows and what it has dropped add up to every call made. */
  lemma ShownAndDroppedAddUp(all: seq<Entry>)
    ensures Sum(Last(all)) + Sum(all[..|all| - |Last(all)|]) == Sum(all)
  {
    var cut := |all| - |Last(all)|;
    assert all == all[..cut] + Last(all);
    SumConcat(all[..cut], Last(all));
  }

  /** A different event has the same key. */
  ghost predicate Confusable(a: Entry) { exists b :: Key(b) == Key(a) && !SameEvent(a, b) }

  /** Cutting the key at another NUL gives another event. */
  lemma OtherEvent(a: Entry, i: nat) returns (b: Entry)
    requires i < |Key(a)| && Key(a)[i] == '\0' && i != |a.level| && i != |a.level| + 1 + |a.source|
    ensures Key(b) == Key(a) && !SameEvent(a, b) && (i > |a.level| ==> b.level == a.level)
  {
    var l := |a.level|;
    if i < l {
      b := a.(level := Key(a)[..i], source := Key(a)[i + 1..l], message := Key(a)[l + 1..]);
    } else {
      b := a.(source := Key(a)[l + 1..i], message := Key(a)[i + 1..]);
    }
  }

  lemma WithNul(a: Entry) returns (b: Entry)
    requires '\0' in a.level || '\0' in a.source || '\0' in a.message
    ensures Key(b) == Key(a) && !SameEvent(a, b) && ('\0' !in a.level ==> b.level == a.level)
  {
    if '\0' in a.level {
      var i :| 0 <= i < |a.level| && a.level[i] == '\0';
      b := OtherEvent(a, i);
    } else if '\0' in a.source {
      var i :| 0 <= i < |a.source| && a.source[i] == '\0';
      b := OtherEvent(a, |a.level| + 1 + i);
    } else {
      var i :| 0 <= i < |a.message| && a.message[i] == '\0';
      b := OtherEvent(a, |a.level| + 1 + |a.source| + 1 + i);
    }
  }

  lemma WithoutNul(a: Entry, b: Entry)
    requires '\0' !in a.level && '\0' !in a.source && '\0' !in a.message && Key(b) == Key(a)
    ensures SameEvent(a, b)
  {
    var l, s := |a.level|, |a.level| + 1 + |a.source|;
    forall i | 0 <= i < |Key(a)| && i != l && i != s ensures Key(a)[i] != '\0' {
      if i < l { assert Key(a)[i] == a.level[i]; }
      else if i < s { assert Key(a)[i] == a.source[i - l - 1]; }
      else { assert Key(a)[i] == a.message[i - s - 1]; }
    }
    assert Key(b)[|b.level|] == '\0' && Key(b)[|b.level| + 1 + |b.source|] == '\0';
    assert Key(a)[..l] == a.level && Key(a)[l + 1..s] == a.source && Key(a)[s + 1..] == a.message;
    assert Key(b)[..l] == b.level && Key(b)[l + 1..s] == b.source && Key(b)[s + 1..] == b.message;
  }

  /** The key tells an event apart from every other one exactly if no text of it holds a
      NUL. */
  lemma ConfusableExactly(a: Entry)
    ensures Confusable(a) <==> '\0' in a.level || '\0' in a.source || '\0' in a.message
  {
    if '\0' in a.level || '\0' in a.source || '\0' in a.message {
      var b := WithNul(a);
    } else {
      forall b | Key(b) == Key(a) ensures SameEvent(a, b) { WithoutNul(a, b); }
    }
  }

  /** Among events as the log keeps them, with one of the three levels, that leaves the
      source and the message. */
  lemma LoggedConfusableExactly(a: Entry)
    requires NormalLevel(a.level) == a.level
    ensures (exists b: Entry :: NormalLevel(b.level) == b.level && Key(b) == Key(a) && !SameEvent(a, b)) <==>
            '\0' in a.source || '\0' in a.message
  {
    assert '\0' !in a.level;
    if '\0' in a.source || '\0' in a.message {
      var b := WithNul(a);
      assert NormalLevel(b.level) == b.level;
    } else {
      forall b | Key(b) == Key(a) ensures SameEvent(a, b) { WithoutNul(a, b); }
    }
  }

  /** With a NUL in the source, two different events may be merged. */
  lemma NulConfusesKeys(a: Entry, b: Entry)
    requires a == Entry(1, "info", "x\0y", "z", 1) && b == Entry(2, "info", "x", "y\0z", 1)
    ensures !SameEvent(a, b) && Appended([a], b, true) == [a.(time := 2, count := 2)]
  {
  }

  function NormalLevel(level: string): string { if level in {"info", "warn", "error"} then level else "info" }

  // ----------------------------------------------------------------- the ring

  /** The ring, given by its slots. */
  ghost predicate Shows(es: seq<Entry>, next: nat, full: bool, all: seq<Entry>) {
    |es| == CAPACITY && next < CAPACITY &&
    (if full then |all| >= CAPACITY && es[next..] + es[..next] == Last(all) else |all| == next && es[..next] == all)
  }

  lemma PushWhileFilling(es: seq<Entry>, next: nat, all: seq<Entry>, e: Entry)
    requires Shows(es, next, false, all)
    ensures Shows(es[next := e], (next + 1) % CAPACITY, next + 1 == CAPACITY, all + [e])
  {
  }

  /** The slots from the oldest on. */
  function Turned(es: seq<Entry>, next: nat): seq<Entry>
    requires next <= |es|
  {
    es[next..] + es[..next]
  }

  lemma TurnedOn(es: seq<Entry>, next: nat, e: Entry)
    requires next + 1 < |es|
    ensures Turned(es[next := e], next + 1) == Turned(es, next)[1..] + [e]
  {
  }

  lemma TurnedOver(es: seq<Entry>, e: Entry)
    requires es != []
    ensures Turned(es[|es| - 1 := e], 0) == Turned(es, |es| - 1)[1..] + [e]
  {
  }

  lemma PushWhenFull(es: seq<Entry>, next: nat, all: seq<Entry>, e: Entry)
    requires Shows(es, next, true, all)
    ensures Shows(es[next := e], (next + 1) % CAPACITY, true, all + [e])
  {
    assert Last(all + [e]) == Last(all)[1..] + [e];
    if next + 1 < CAPACITY { TurnedOn(es, next, e); } else { TurnedOver(es, e); }
  }

  class Log {
    const entries: array<Entry>
    var next: nat
    var full: bool
    var lastKey: string
    var lastIdx: nat
    var lastWrite: int
    ghost var all: seq<Entry>     // the unbounded log since the last clear
    ghost var calls: int          // calls since then; a replayed entry stands for its count

    constructor ()
      ensures Valid() && all == [] && calls == 0 && fresh(entries)
    {
      entries := new Entry[CAPACITY](_ => BLANK);
      next, full, lastKey, lastIdx, lastWrite, all, calls := 0, false, "", 0, 0, [], 0;
    }

    /** The ring holds the newest part of the log. */
    ghost predicate Ring()
      reads this, entries
    {
      Shows(entries[..], next, full, all)
    }

    /** Once something was logged, the slot for merging is the newest entry. */
    ghost predicate Slot()
      reads this
    {
      lastKey != "" ==>
        all != [] && lastIdx == (if next == 0 then CAPACITY - 1 else next - 1) &&
        lastKey == Key(all[|all| - 1]) && lastWrite == all[|all| - 1].time && all[|all| - 1].count > 0
    }

    ghost predicate Valid()
      reads this, entries
    {
      Ring() && Slot() && Sum(all) == calls
    }

    /** Writes an entry into the next slot. */
    method Push(e: Entry)
      requires Ring()
      modifies this`next, this`full, this`all, entries
      ensures Ring() && all == old(all) + [e] && next == (old(next) + 1) % CAPACITY
    {
      ghost var es := entries[..];
      if full { PushWhenFull(es, next, all, e); } else { PushWhileFilling(es, next, all, e); }
      entries[next] := e;
      assert entries[..] == es[next := e];
      next := (next + 1) % CAPACITY;
      if next == 0 {
        full := true;
      }
      all := all + [e];
    }

    /** Whether the ring would merge the entry, in terms of the unbounded log. */
    lemma MergesAlike(e: Entry)
      requires Ring() && Slot()
      ensures (full || next > 0) && Key(e) == lastKey && e.time - lastWrite <= WINDOW <==>
              Repeats(all, e, lastKey != "")
    {
    }

    /** EventLog.Log, for texts already redacted and cut to size. */
    method Log(level: string, source: string, message: string, now: int)
      requires Valid()
      modifies this, entries
      ensures Valid() && all == Appended(old(all), Entry(now, NormalLevel(level), source, message, 1), old(lastKey) != "")
      ensures lastKey == Key(Entry(now, NormalLevel(level), source, message, 1)) && calls == old(calls) + 1
    {
      calls := calls + 1;
      var e := Entry(now, NormalLevel(level), source, message, 1);
      EachCallCounts(all, e, lastKey != "");
      MergesAlike(e);
      if (full || next > 0) && Key(e) == lastKey && now - lastWrite <= WINDOW {
        Merge(now);
      } else {
        Store(e);
      }
    }

    /** A new entry, which becomes the slot for merging. */
    method Store(e: Entry)
      requires Ring() && e.count > 0
      modifies this`next, this`full, this`all, this`lastIdx, this`lastKey, this`lastWrite, entries
      ensures Ring() && Slot() && all == old(all) + [e] && lastKey == Key(e)
    {
      var slot := next;
      Push(e);
      lastIdx := slot;
      lastKey := Key(e);
      lastWrite := e.time;
    }

    /** Merging into the newest entry. */
    method Merge(now: int)
      requires Ring() && Slot() && lastKey != ""
      modifies this`all, this`lastWrite, entries
      ensures Ring() && Slot() && all == Merged(old(all), now) && lastWrite == now
    {
      var prev := entries[lastIdx];
      NewestSlot();
      var count := if prev.count == 0 then 1 else prev.count;
      entries[lastIdx] := prev.(time := now, count := count + 1);
      lastWrite := now;
      all := Merged(all, now);
    }

    /** The slot for merging holds the newest entry of the log. */
    lemma NewestSlot()
      requires Ring() && Slot() && lastKey != ""
      ensures lastIdx < CAPACITY && entries[lastIdx] == all[|all| - 1]
    {
    }

    /** appendDirect, which LoadFromDisk uses at startup, before anything was logged.
        Afterwards the slot for merging is still the newest entry exactly if nothing
        was logged before: otherwise it is left behind, and the next repetition of the
        logged event would be counted on an older entry. */
    method Replay(e: Entry)
      requires Valid()
      modifies this`next, this`full, this`all, this`calls, entries
      ensures Ring() && all == old(all) + [Replayed(e)] && calls == old(calls) + Replayed(e).count && Sum(all) == calls
      ensures Slot() <==> lastKey == ""
    {
      var r := Replayed(e);
      SumOneMore(all, r);
      Push(r);
      calls := calls + r.count;
    }

    /** EventLog.Snapshot: the newest entries of the unbounded log, oldest first. */
    method Snapshot() returns (out: seq<Entry>)
      requires Valid()
      ensures out == Last(all)
    {
      if !full {
        return entries[..next];
      }
      return entries[next..] + entries[..next];
    }

    method Len() returns (n: nat)
      requires Valid()
      ensures n == |Last(all)|
    {
      return if full then CAPACITY else next;
    }

    method Clear()
      requires Valid()
      modifies this, entries
      ensures Valid() && all == [] && lastKey == "" && calls == 0
    {
      var i := 0;
      while i < entries.Length
        invariant 0 <= i <= entries.Length
      {
        entries[i] := BLANK;
        i := i + 1;
      }
      next, full, lastKey, lastIdx, lastWrite, all, calls := 0, false, "", 0, 0, [], 0;
    }

    /** Studio.RecentErrorCount: counts from the newest entry back to the first one
        before the cutoff. */
    method RecentErrorCount(window: int, now: int) returns (count: int)
      requires Valid()
      ensures Ordered(Last(all)) ==>
                count == Errors(Last(all), if window > 0 then now - window else 0)
      ensures count == Errors(Recent(Last(all), if window > 0 then now - window else 0), 0)
    {
      var shown := Snapshot();
      var cutoff := if window > 0 then now - window else 0;
      count := CountBack(shown, cutoff);
      if Ordered(shown) { RecentIsFilter(shown, cutoff); }
    }
  }

  /** The loop of RecentErrorCount. */
  method CountBack(shown: seq<Entry>, cutoff: int) returns (count: int)
    ensures count == Errors(Recent(shown, cutoff), 0)
  {
    count := 0;
    var i := |shown|;
    assert shown[..i] == shown && shown[i..] == [];
    while i > 0
      invariant 0 <= i <= |shown|
      invariant Recent(shown, cutoff) == Recent(shown[..i], cutoff) + shown[i..]
      invariant count == Errors(shown[i..], 0)
    {
      assert shown[..i][..i - 1] == shown[..i - 1];
      var e := shown[i - 1];
      if cutoff > 0 && e.time < cutoff {
        break;
      }
      ErrorsFirst(shown[i - 1..], 0);
      assert shown[i - 1..][1..] == shown[i..];
      assert Recent(shown[..i - 1], cutoff) + [e] + shown[i..] == Recent(shown[..i - 1], cutoff) + shown[i - 1..];
      if e.level == "error" {
        count := count + (if e.count < 1 then 1 else e.count);
      }
      i := i - 1;
    }
    assert Recent(shown[..i], cutoff) == [];
    assert Recent(shown, cutoff) == shown[i..];
  }

  function Replayed(e: Entry): Entry { if e.count == 0 then e.(count := 1) else e }

  // -------------------------------------------------------------- error counts

  predicate Ordered(es: seq<Entry>) { forall i, j :: 0 <= i < j < |es| ==> es[i].time <= es[j].time }

  /** The errors at or after the cutoff, if there is one. */
  function Errors(es: seq<Entry>, cutoff: int): int {
    if es == [] then 0
    else
      Errors(es[..|es| - 1], cutoff) +
      var e := es[|es| - 1];
      if e.level == "error" && !(cutoff > 0 && e.time < cutoff) then (if e.count < 1 then 1 else e.count) else 0
  }

  lemma {:induction false} ErrorsConcat(a: seq<Entry>, b: seq<Entry>, cutoff: int)
    ensures Errors(a + b, cutoff) == Errors(a, cutoff) + Errors(b, cutoff)
  {
    if b == [] {
      assert a + b == a;
    } else {
      assert (a + b)[..|a + b| - 1] == a + b[..|b| - 1];
      ErrorsConcat(a, b[..|b| - 1], cutoff);
    }
  }

  lemma ErrorsFirst(es: seq<Entry>, cutoff: int)
    requires es != []
    ensures Errors(es, cutoff) == Errors([es[0]], cutoff) + Errors(es[1..], cutoff)
    ensures cutoff == 0 ==>
              Errors([es[0]], 0) == if es[0].level != "error" then 0 else if es[0].count < 1 then 1 else es[0].count
  {
    assert es == [es[0]] + es[1..];
    ErrorsConcat([es[0]], es[1..], cutoff);
    assert [es[0]][..0] == [];
  }

  /** The entries after the newest one that lies before the cutoff. */
  function Recent(es: seq<Entry>, cutoff: int): seq<Entry> {
    if es == [] || (cutoff > 0 && es[|es| - 1].time < cutoff) then []
    else Recent(es[..|es| - 1], cutoff) + [es[|es| - 1]]
  }

  /** While time never goes backwards, stopping early misses nothing. */
  lemma {:induction false} RecentIsFilter(es: seq<Entry>, cutoff: int)
    requires Ordered(es)
    ensures Errors(Recent(es, cutoff), 0) == Errors(es, cutoff)
  {
    if es != [] {
      var init, last := es[..|es| - 1], es[|es| - 1];
      if cutoff > 0 && last.time < cutoff {
        NoneRecent(es, cutoff);
      } else {
        RecentIsFilter(init, cutoff);
        ErrorsConcat(Recent(init, cutoff), [last], 0);
        assert [last][..0] == [];
      }
    }
  }

  lemma {:induction false} NoneRecent(es: seq<Entry>, cutoff: int)
    requires cutoff > 0 && forall i :: 0 <= i < |es| ==> es[i].time < cutoff
    ensures Errors(es, cutoff) == 0
  {
    if es != [] { NoneRecent(es[..|es| - 1], cutoff); }
  }

  // ----------------------------------------------------------------- rotation

  /** The size of the lines on disk, each with its newline. */
  function DiskBytes(lines: seq<string>): nat { if lines == [] then 0 else |lines[0]| + 1 + DiskBytes(lines[1..]) }

  /** rotateLocked: the longest run of newest lines that fits half the budget. */
  method Rotate(lines: seq<string>) returns (kept: seq<string>)
    ensures exists from :: 0 <= from <= |lines| && kept == lines[from..] &&
              (from > 0 ==> DiskBytes(lines[from - 1..]) > DISK_BYTES / 2)
    ensures DiskBytes(kept) <= DISK_BYTES / 2
  {
    var from, bytes := |lines|, 0;
    while from > 0
      invariant 0 <= from <= |lines|
      invariant bytes == DiskBytes(lines[from..]) <= DISK_BYTES / 2
    {
      assert lines[from - 1..][1..] == lines[from..];
      if bytes + |lines[from - 1]| + 1 > DISK_BYTES / 2 {
        break;
      }
      from := from - 1;
      bytes := bytes + |lines[from]| + 1;
    }
    return lines[from..];
  }
}
