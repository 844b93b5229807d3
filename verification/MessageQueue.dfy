/** The follow-ups waiting in one chat (internal/studio/app.go, session.go). Each
    method is one section under the session's lock; any caller may call any of them at
    any time, except that the two worker sections belong to running workers. */
module MessageQueue {
  import opened Text

  const MAX_TURNS: nat := 8
  const MAX_MEDIA: nat := 0x400_0000   // 64 MiB
  const MAX_ID: nat := 128

  datatype Turn = Turn(id: string, message: string, media: nat, stamp: string)

  function Media(turns: seq<Turn>): nat { if turns == [] then 0 else turns[0].media + Media(turns[1..]) }

  predicate HasTurn(turns: seq<Turn>, id: string) { exists i :: 0 <= i < |turns| && turns[i].id == id }

  predicate Increasing(ks: seq<nat>) { forall i, j :: 0 <= i < j < |ks| ==> ks[i] < ks[j] }

  lemma {:induction false} MediaConcat(a: seq<Turn>, b: seq<Turn>)
    ensures Media(a + b) == Media(a) + Media(b)
  {
    if a == [] {
      assert a + b == b;
    } else {
      assert (a + b)[1..] == a[1..] + b;
      MediaConcat(a[1..], b);
    }
  }

  /** Why a follow-up is turned down. */
  predicate Refused(turns: seq<Turn>, worker: bool, halt: bool, archived: bool, turn: Turn) {
    turn.id == "" || |turn.id| > MAX_ID || archived || !worker || halt || |turns| >= MAX_TURNS ||
    HasTurn(turns, turn.id) || Media(turns) + turn.media > MAX_MEDIA
  }

  /** What became of the follow-ups; each is known by its place among the accepted. */
  datatype Ledger = Ledger(
    accepted: seq<Turn>, pending: seq<nat>, started: seq<nat>,   // started: in that order
    removed: set<nat>,                                           // by RemoveQueuedMessage
    cleared: set<nat>)                                           // by Stop

  /** The queue is the accepted follow-ups that nothing has happened to yet, in
      order, and within the limits; the started ones came before them, in order. */
  ghost predicate InOrder(turns: seq<Turn>, l: Ledger) {
    |turns| == |l.pending| <= MAX_TURNS && Media(turns) <= MAX_MEDIA &&
    Increasing(l.pending) && Increasing(l.started) &&
    (forall i :: 0 <= i < |l.pending| ==> l.pending[i] < |l.accepted| && turns[i] == l.accepted[l.pending[i]]) &&
    (forall i, j :: 0 <= i < |l.started| && 0 <= j < |l.pending| ==> l.started[i] < l.pending[j]) &&
    (forall i :: 0 <= i < |l.started| ==> l.started[i] < |l.accepted|)
  }

  /** Every accepted follow-up is in exactly one place. */
  ghost predicate Conserved(l: Ledger) {
    l.removed !! l.cleared &&
    (forall k :: k in l.removed + l.cleared ==> k < |l.accepted| && k !in l.started && k !in l.pending) &&
    (forall k :: k in l.started ==> k !in l.pending) &&
    (forall k: nat :: k < |l.accepted| ==> k in l.started || k in l.pending || k in l.removed || k in l.cleared)
  }

  /** Whatever waits came when this many had been accepted, and nothing later was
      started. */
  ghost predicate Late(l: Ledger, mark: nat) {
    (forall i :: 0 <= i < |l.pending| ==> l.pending[i] >= mark) &&
    (forall i :: 0 <= i < |l.started| ==> l.started[i] < mark)
  }

  lemma AcceptKeepsOrder(turns: seq<Turn>, l: Ledger, turn: Turn)
    requires InOrder(turns, l) && |turns| < MAX_TURNS && Media(turns) + turn.media <= MAX_MEDIA
    ensures InOrder(turns + [turn], l.(accepted := l.accepted + [turn], pending := l.pending + [|l.accepted|]))
  {
    MediaConcat(turns, [turn]);
  }

  lemma AcceptConserves(l: Ledger, turn: Turn)
    requires Conserved(l) && forall i :: 0 <= i < |l.started| ==> l.started[i] < |l.accepted|
    ensures Conserved(l.(accepted := l.accepted + [turn], pending := l.pending + [|l.accepted|]))
  {
  }

  lemma RemoveKeepsOrder(turns: seq<Turn>, l: Ledger, i: nat)
    requires InOrder(turns, l) && i < |turns|
    ensures InOrder(turns[..i] + turns[i + 1..],
                    l.(pending := l.pending[..i] + l.pending[i + 1..], removed := l.removed + {l.pending[i]}))
  {
    RemovingKeepsMedia(turns, i);
    var turns', pending' := turns[..i] + turns[i + 1..], l.pending[..i] + l.pending[i + 1..];
    forall j | 0 <= j < |pending'|
      ensures turns'[j] == turns[if j < i then j else j + 1] && pending'[j] == l.pending[if j < i then j else j + 1]
    {
    }
  }

  lemma WithoutOne(ks: seq<nat>, i: nat, k: nat)
    requires i < |ks| && Increasing(ks)
    ensures k in ks[..i] + ks[i + 1..] <==> k in ks && k != ks[i]
  {
  }

  lemma RemoveConserves(l: Ledger, i: nat)
    requires Conserved(l) && i < |l.pending| && Increasing(l.pending) && l.pending[i] < |l.accepted|
    ensures Conserved(l.(pending := l.pending[..i] + l.pending[i + 1..], removed := l.removed + {l.pending[i]}))
  {
    var rest := l.pending[..i] + l.pending[i + 1..];
    forall k: nat ensures k in rest <==> k in l.pending && k != l.pending[i] { WithoutOne(l.pending, i, k); }
    assert l.pending[i] in l.pending;
  }

  lemma StartKeeps(turns: seq<Turn>, l: Ledger)
    requires InOrder(turns, l) && Conserved(l) && turns != []
    ensures var l' := l.(pending := l.pending[1..], started := l.started + [l.pending[0]]);
            InOrder(turns[1..], l') && Conserved(l')
  {
    assert l.pending == [l.pending[0]] + l.pending[1..];
  }

  class ChatSession {
    var queueWorker: bool
    var queueHalt: bool
    var queuedTurns: seq<Turn>
    var incoming: string     // the delegation stamp of the turn being run
    ghost var l: Ledger
    ghost var turning: nat   // workers running a turn
    ghost var leaving: nat   // workers that decided to leave
    ghost var mark: nat      // how many were accepted when that was decided
    ghost var crashed: bool  // the last worker ended in a panic

    constructor ()
      ensures Valid() && !queueWorker && queuedTurns == [] && l == Ledger([], [], [], {}, {}) && turning == leaving == 0
    {
      queueWorker, queueHalt, queuedTurns, incoming := false, false, [], "";
      l, turning, leaving, mark, crashed := Ledger([], [], [], {}, {}), 0, 0, 0, false;
    }

    /** There is one worker, or none; while it is leaving and after it has left, whatever
        waits was accepted after its decision, unless it ended in a panic; after a Stop
        nothing waits at all. */
    ghost predicate Valid()
      reads this
    {
      turning + leaving == (if queueWorker then 1 else 0) && InOrder(queuedTurns, l) && Conserved(l) &&
      mark <= |l.accepted| && (queueHalt ==> queuedTurns == []) && (queueWorker ==> !crashed) &&
      (turning == 0 && !crashed ==> Late(l, mark))
    }

    /** Without a worker, short of a panic, a follow-up waits exactly if it was accepted
        after the last worker's decision and nobody took it back. */
    lemma WaitingExactly(k: nat)
      requires Valid() && turning == 0 && !crashed && k < |l.accepted|
      ensures k in l.pending <==> k >= mark && k !in l.removed && k !in l.cleared
    {
      if k in l.pending { assert k !in l.removed + l.cleared; }
    }

    /** The queue claim of startMessageWithQueueEventPermissionTopologyLocked;
        `background` is whether the worker could be started. */
    method Start(archived: bool, background: bool, stamp: string) returns (ok: bool)
      requires Valid()
      modifies this`queueWorker, this`queueHalt, this`incoming, this`turning, this`crashed
      ensures Valid() && (ok <==> !old(queueWorker) && !archived && background)
      ensures ok ==> queueWorker && !queueHalt && turning == 1 && leaving == 0 && incoming == stamp && !crashed
      ensures !ok ==> queueWorker == old(queueWorker) && turning == old(turning) && crashed == old(crashed)
    {
      if queueWorker || archived {
        return false;
      }
      queueWorker, queueHalt, incoming := true, false, stamp;
      if !background {
        queueWorker, queueHalt := false, false;
        return false;
      }
      turning, crashed := 1, false;
      return true;
    }

    /** queueMessageWithDelegation. */
    method Queue(turn: Turn, archived: bool) returns (ok: bool)
      requires Valid()
      modifies this`queuedTurns, this`l
      ensures Valid() && (ok <==> !Refused(old(queuedTurns), queueWorker, queueHalt, archived, Tidy(turn)))
      ensures !ok ==> queuedTurns == old(queuedTurns) && l == old(l)
      ensures ok ==> queuedTurns == old(queuedTurns) + [Tidy(turn)] && l.accepted == old(l).accepted + [Tidy(turn)]
    {
      var tidy := Tidy(turn);
      if tidy.id == "" || |tidy.id| > MAX_ID || archived || !queueWorker || queueHalt || |queuedTurns| >= MAX_TURNS {
        return false;
      }
      var duplicate, media := Survey(queuedTurns, tidy.id);
      if duplicate {
        return false;
      }
      if media + tidy.media > MAX_MEDIA {
        return false;
      }
      AcceptKeepsOrder(queuedTurns, l, tidy);
      AcceptConserves(l, tidy);
      queuedTurns := queuedTurns + [tidy];
      l := l.(accepted := l.accepted + [tidy], pending := l.pending + [|l.accepted|]);
      return true;
    }

    /** RemoveQueuedMessage. */
    method Remove(id: string) returns (ok: bool)
      requires Valid()
      modifies this`queuedTurns, this`l
      ensures Valid() && (ok <==> HasTurn(old(queuedTurns), id))
      ensures !ok ==> queuedTurns == old(queuedTurns) && l == old(l)
      ensures ok ==> exists i :: 0 <= i < |old(queuedTurns)| && old(queuedTurns)[i].id == id &&
                       queuedTurns == old(queuedTurns)[..i] + old(queuedTurns)[i + 1..] &&
                       l.removed == old(l).removed + {old(l).pending[i]}
    {
      var i := Find(queuedTurns, id);
      if i == |queuedTurns| {
        return false;
      }
      RemoveKeepsOrder(queuedTurns, l, i);
      RemoveConserves(l, i);
      queuedTurns := queuedTurns[..i] + queuedTurns[i + 1..];
      l := l.(pending := l.pending[..i] + l.pending[i + 1..], removed := l.removed + {l.pending[i]});
      return true;
    }

    /** ChatSession.Stop: the IDs of the follow-ups it dropped. */
    method Stop() returns (ids: seq<string>)
      requires Valid()
      modifies this`queuedTurns, this`l, this`queueHalt
      ensures Valid() && queuedTurns == [] && queueHalt
      ensures |ids| == |old(queuedTurns)| && forall i :: 0 <= i < |ids| ==> ids[i] == old(queuedTurns)[i].id
      ensures l.started == old(l).started && l.cleared == old(l).cleared + set k | k in old(l).pending
    {
      ids := seq(|queuedTurns|, i requires 0 <= i < |queuedTurns| reads this => queuedTurns[i].id);
      l := l.(pending := [], cleared := l.cleared + set k | k in l.pending);
      queuedTurns, queueHalt := [], true;
    }

    /** The worker between two turns: it takes the oldest follow-up, or decides to
        leave. */
    method NextTurn() returns (more: bool)
      requires Valid() && turning > 0
      modifies this`queuedTurns, this`l, this`incoming, this`turning, this`leaving, this`mark
      ensures Valid() && (more <==> !queueHalt && old(queuedTurns) != [])
      ensures more ==> queuedTurns == old(queuedTurns)[1..] && incoming == old(queuedTurns)[0].stamp &&
                       l.started == old(l).started + [old(l).pending[0]] && turning == old(turning)
      ensures !more ==> queuedTurns == old(queuedTurns) == [] && l == old(l) && leaving == 1 && mark == |l.accepted|
    {
      if queueHalt || queuedTurns == [] {
        turning, leaving, mark := turning - 1, leaving + 1, |l.accepted|;
        return false;
      }
      StartKeeps(queuedTurns, l);
      incoming := queuedTurns[0].stamp;
      queuedTurns := queuedTurns[1..];
      l := l.(pending := l.pending[1..], started := l.started + [l.pending[0]]);
      return true;
    }

    /** The worker's deferred exit, also after a panic in a turn. */
    method Leave(panicked: bool)
      requires Valid() && (if panicked then turning > 0 else leaving > 0)
      modifies this`queueWorker, this`queueHalt, this`turning, this`leaving, this`crashed
      ensures Valid() && !queueWorker && !queueHalt && turning == leaving == 0 && crashed == panicked
    {
      turning, leaving, crashed := 0, 0, panicked;
      queueWorker, queueHalt := false, false;
    }
  }

  method Find(turns: seq<Turn>, id: string) returns (i: nat)
    ensures i <= |turns| && (i < |turns| ==> turns[i].id == id)
    ensures forall j :: 0 <= j < i ==> turns[j].id != id
  {
    i := 0;
    while i < |turns| && turns[i].id != id
      invariant 0 <= i <= |turns|
      invariant forall j :: 0 <= j < i ==> turns[j].id != id
    {
      i := i + 1;
    }
  }

  /** The loop over the waiting turns: is the ID taken, and how much do they carry? */
  method Survey(turns: seq<Turn>, id: string) returns (duplicate: bool, media: nat)
    ensures duplicate <==> HasTurn(turns, id)
    ensures !duplicate ==> media == Media(turns)
  {
    media := 0;
    var i := 0;
    while i < |turns|
      invariant 0 <= i <= |turns| && media == Media(turns[..i])
      invariant forall j :: 0 <= j < i ==> turns[j].id != id
    {
      if turns[i].id == id {
        return true, 0;
      }
      MediaConcat(turns[..i], [turns[i]]);
      assert turns[..i + 1] == turns[..i] + [turns[i]];
      media := media + turns[i].media;
      i := i + 1;
    }
    assert turns[..i] == turns;
    return false, media;
  }

  function Tidy(turn: Turn): Turn { turn.(id := TrimSpace(turn.id)) }

  lemma {:induction false} MediaAt(turns: seq<Turn>, i: nat)
    requires i < |turns|
    ensures Media(turns) == Media(turns[..i]) + turns[i].media + Media(turns[i + 1..])
  {
    if i > 0 {
      MediaAt(turns[1..], i - 1);
      assert turns[1..][..i - 1] == turns[..i][1..] && turns[1..][i..] == turns[i + 1..];
    }
  }

  lemma RemovingKeepsMedia(turns: seq<Turn>, i: nat)
    requires i < |turns|
    ensures Media(turns[..i] + turns[i + 1..]) <= Media(turns)
  {
    MediaAt(turns, i);
    MediaConcat(turns[..i], turns[i + 1..]);
  }

  method Deciding() returns (s: ChatSession)
    ensures fresh(s) && s.Valid() && s.queueWorker && !s.queueHalt && s.leaving == 1 && !s.crashed
    ensures s.queuedTurns == [] && s.l.accepted == []
  {
    s := new ChatSession();
    var started := s.Start(false, true, "");
    var more := s.NextTurn();
  }

  /** A queue with follow-ups need not have a worker, even without a panic: one accepted
      between a worker's decision to leave and its exit is stranded until the next
      message. */
  method Stranded(turn: Turn) returns (s: ChatSession)
    requires TrimSpace(turn.id) != "" && |TrimSpace(turn.id)| <= MAX_ID && turn.media <= MAX_MEDIA
    ensures s.Valid() && !s.queueWorker && !s.crashed && s.queuedTurns == [Tidy(turn)] && s.l.accepted == [Tidy(turn)]
  {
    s := Deciding();
    var queued := s.Queue(turn, false);
    s.Leave(false);
  }
}
