/** Waiting in a circle among starting, cancelling, deleting, clearing, stopping,
    messaging and archiving (internal/studio/delegation.go, app.go, project.go,
    archived_projects.go, session_archives.go).

    A thread is the sequence of locks it takes and drops. The locks are almost
    ordered. A start holds delegationMu when it takes its target's project lock, and
    a deletion holds a project lock when it takes delegationMu; the project's
    metadata lock, held by both, is the gate that keeps the two apart. And a budget
    check that has to fill the cost cache takes Studio.mu under costMu, while
    clearing a chat takes costMu under Studio.mu; nothing keeps those two apart. */
module LockOrder {
  import opened Text

  // ------------------------------------------------------------------- locks

  datatype Lock =
    | Cost(id: string)  // Project.costMu
    | Studio            // Studio.mu
    | Meta(id: string)  // Project.metadataMu
    | Proj(id: string)  // Project.mu
    | Owners            // Studio.delegationMu
    | Runs              // delegationRunsMu
    | Config            // Studio.configSaveMu
    | Chat(id: string)  // ChatSession.mu

  datatype Act = Take(lock: Lock, shared: bool) | Drop(lock: Lock)

  function Level(l: Lock): nat {
    match l
    case Cost(_) => 0
    case Studio => 1
    case Meta(_) => 2
    case Proj(_) => 3
    case Owners => 4
    case Runs => 5
    case Config => 5
    case Chat(_) => 6
  }

  predicate Before(a: Lock, b: Lock) {
    Level(a) < Level(b) || (a.Meta? && b.Meta? && Less(a.id, b.id))
  }

  lemma BeforeIsStrict(a: Lock)
    ensures !Before(a, a)
  {
    if a.Meta? && Less(a.id, a.id) { LessIsStrict(a.id, a.id); }
  }

  lemma BeforeIsTransitive(a: Lock, b: Lock, c: Lock)
    requires Before(a, b) && Before(b, c)
    ensures Before(a, c)
  {
    if a.Meta? && b.Meta? && c.Meta? { LessIsTransitive(a.id, b.id, c.id); }
  }

  // -------------------------------------------------------------- discipline

  type Held = map<Lock, bool>   // the locks a thread holds, and whether shared

  /** The one exception to the order, covered by the gate. */
  predicate Gated(held: set<Lock>, h: Lock, l: Lock) {
    h.Owners? && l.Proj? && Meta(l.id) in held
  }

  // What a thread may do beyond the order: take Studio.mu for writing, fill a cost
  // cache, drop a cost cache while it holds Studio.mu.
  datatype Rights = Rights(writes: bool, fills: set<string>, clears: set<string>)

  /** A thread holding `held` may wait for `l`. A project's lock is kept while
      waiting for anything but a chat only under that project's metadata lock. */
  ghost predicate Allowed(may: Rights, held: Held, l: Lock, shared: bool) {
    (forall h :: h in held ==> Before(h, l) || Gated(held.Keys, h, l) || (l.Cost? && (h.Studio? || h.Meta?))) &&
    (forall h :: h in held && h.Proj? && !l.Chat? ==> Meta(h.id) in held) &&
    (forall h :: h in held && h.Cost? ==> l.Proj? || l.Chat? || (l.Studio? && shared && h.id in may.fills)) &&
    (l.Meta? || l.Cost? ==> !shared) && (l.Studio? && !shared ==> may.writes) &&
    (l.Cost? && held != map[] ==> Studio in held && held[Studio] && l.id in may.clears)
  }

  function Then(held: Held, a: Act): Held {
    match a
    case Take(l, shared) => held[l := shared]
    case Drop(l) => held - {l}
  }

  function After(held: Held, trace: seq<Act>): Held
    decreases |trace|
  {
    if trace == [] then held else After(Then(held, trace[0]), trace[1..])
  }

  ghost predicate Safe(may: Rights, held: Held, trace: seq<Act>)
    decreases |trace|
  {
    trace != [] ==>
      (trace[0].Take? ==> Allowed(may, held, trace[0].lock, trace[0].shared)) &&
      Safe(may, Then(held, trace[0]), trace[1..])
  }

  ghost predicate Disciplined(may: Rights, trace: seq<Act>) { Safe(may, map[], trace) }

  lemma {:induction false} SafeConcat(may: Rights, held: Held, a: seq<Act>, b: seq<Act>)
    ensures After(held, a + b) == After(After(held, a), b)
    ensures Safe(may, held, a + b) <==> Safe(may, held, a) && Safe(may, After(held, a), b)
    decreases |a|
  {
    if a == [] {
      assert a + b == b;
    } else {
      assert (a + b)[1..] == a[1..] + b;
      SafeConcat(may, Then(held, a[0]), a[1..], b);
    }
  }

  lemma SafeAt(may: Rights, trace: seq<Act>, i: nat)
    requires Disciplined(may, trace) && i < |trace| && trace[i].Take?
    ensures Allowed(may, After(map[], trace[..i]), trace[i].lock, trace[i].shared)
  {
    assert trace == trace[..i] + trace[i..];
    SafeConcat(may, map[], trace[..i], trace[i..]);
  }

  // ------------------------------------------------------------------ threads

  // asked: waiting to write, and announced to readers that come later
  datatype Worker = Worker(may: Rights, trace: seq<Act>, at: nat, asked: bool)

  predicate Going(w: Worker) { w.at <= |w.trace| }

  function Holding(w: Worker): Held
    requires Going(w)
  {
    After(map[], w.trace[..w.at])
  }

  predicate Waiting(w: Worker) { w.at < |w.trace| && w.trace[w.at].Take? }

  function Want(w: Worker): Lock
    requires Waiting(w)
  {
    w.trace[w.at].lock
  }

  type System = seq<Worker>

  /** A lock can be taken when its holders permit. (Go also holds readers back behind
      a waiting writer, so every run of the program is a run here.) */
  ghost predicate Free(s: System, l: Lock, shared: bool) {
    forall u :: 0 <= u < |s| && Going(s[u]) && l in Holding(s[u]) ==> shared && Holding(s[u])[l]
  }

  datatype Step = Advance(t: nat) | Ask(t: nat) | Begin(may: Rights, trace: seq<Act>)

  ghost predicate Can(s: System, step: Step) {
    match step
    case Advance(t) =>
      t < |s| && s[t].at < |s[t].trace| &&
      (s[t].trace[s[t].at].Take? ==> Free(s, s[t].trace[s[t].at].lock, s[t].trace[s[t].at].shared))
    case Ask(t) => t < |s| && Waiting(s[t]) && !s[t].trace[s[t].at].shared
    case Begin(may, trace) => Disciplined(may, trace)
  }

  function Next(s: System, step: Step): System {
    match step
    case Advance(t) => if t < |s| then s[t := s[t].(at := s[t].at + 1, asked := false)] else s
    case Ask(t) => if t < |s| then s[t := s[t].(asked := true)] else s
    case Begin(may, trace) => s + [Worker(may, trace, 0, false)]
  }

  /** `s` is where the steps lead from `from`. */
  ghost predicate Leads(from: System, steps: seq<Step>, s: System)
    decreases |steps|
  {
    if steps == [] then s == from else Can(from, steps[0]) && Leads(Next(from, steps[0]), steps[1..], s)
  }

  /** Two threads hold a lock together only if both share it. */
  ghost predicate Sound(s: System) {
    (forall t :: 0 <= t < |s| ==> Going(s[t]) && Disciplined(s[t].may, s[t].trace)) &&
    (forall t, u, l :: 0 <= t < u < |s| && l in Holding(s[t]) && l in Holding(s[u]) ==>
       Holding(s[t])[l] && Holding(s[u])[l]) &&
    (forall t, p :: 0 <= t < |s| && Meta(p) in Holding(s[t]) ==> !Holding(s[t])[Meta(p)]) &&
    (forall t, p :: 0 <= t < |s| && Cost(p) in Holding(s[t]) ==> !Holding(s[t])[Cost(p)])
  }

  lemma HoldingMoves(w: Worker)
    requires w.at < |w.trace|
    ensures Holding(w.(at := w.at + 1, asked := false)) == Then(Holding(w), w.trace[w.at])
  {
    assert w.trace[..w.at + 1] == w.trace[..w.at] + [w.trace[w.at]];
    SafeConcat(w.may, map[], w.trace[..w.at], [w.trace[w.at]]);
  }

  lemma AdvanceKeeps(s: System, t: nat)
    requires Sound(s) && Can(s, Advance(t))
    ensures Sound(Next(s, Advance(t)))
  {
    var s' := Next(s, Advance(t));
    HoldingMoves(s[t]);
    var a := s[t].trace[s[t].at];
    if a.Take? { SafeAt(s[t].may, s[t].trace, s[t].at); }
    forall u | 0 <= u < |s| && u != t ensures s'[u] == s[u] { }
    forall u, l | 0 <= u < |s| && u != t && l in Holding(s'[t]) && l in Holding(s[u])
      ensures Holding(s'[t])[l] && Holding(s[u])[l]
    {
      if a.Take? && l == a.lock { assert Free(s, l, a.shared); } else { assert l in Holding(s[t]); }
    }
  }

  lemma AskKeeps(s: System, t: nat)
    requires Sound(s) && Can(s, Ask(t))
    ensures Sound(Next(s, Ask(t)))
  {
    var s' := Next(s, Ask(t));
    forall u | 0 <= u < |s| ensures Holding(s'[u]) == Holding(s[u]) { }
  }

  lemma BeginKeeps(s: System, may: Rights, trace: seq<Act>)
    requires Sound(s) && Disciplined(may, trace)
    ensures Sound(Next(s, Begin(may, trace)))
  {
    assert Holding(Worker(may, trace, 0, false)) == map[];
  }

  lemma {:induction false} SoundAfter(from: System, steps: seq<Step>, s: System)
    requires Sound(from) && Leads(from, steps, s)
    ensures Sound(s)
    decreases |steps|
  {
    if steps != [] {
      match steps[0] {
        case Advance(t) => AdvanceKeeps(from, t);
        case Ask(t) => AskKeeps(from, t);
        case Begin(may, trace) => BeginKeeps(from, may, trace);
      }
      SoundAfter(Next(from, steps[0]), steps[1..], s);
    }
  }

  // ------------------------------------------------------------------- cycles

  predicate Shares(w: Worker)
    requires Waiting(w)
  {
    w.trace[w.at].shared
  }

  /** Thread `b` holds the lock that `a` wants. */
  ghost predicate HoldEdge(s: System, a: nat, b: nat) {
    a < |s| && b < |s| && Waiting(s[a]) && Going(s[b]) && Want(s[a]) in Holding(s[b])
  }

  /** Go's RWMutex: a reader waits for a writer that was there first. */
  ghost predicate QueueEdge(s: System, a: nat, b: nat) {
    a < |s| && b < |s| && Waiting(s[a]) && Waiting(s[b]) && Want(s[a]) == Want(s[b]) &&
    Shares(s[a]) && !Shares(s[b]) && s[b].asked
  }

  /** Readers do not wait for readers. */
  ghost predicate Waits(s: System, a: nat, b: nat) {
    (HoldEdge(s, a, b) && !(Shares(s[a]) && Holding(s[b])[Want(s[a])])) || QueueEdge(s, a, b)
  }

  /** Each thread of the list waits for the next. */
  ghost predicate Walk(s: System, d: seq<nat>) { forall i :: 0 <= i < |d| - 1 ==> Waits(s, d[i], d[i + 1]) }

  ghost predicate Cycle(s: System, c: seq<nat>) { c != [] && Walk(s, c + [c[0]]) }

  /** Going round the cycle `m` times, and back to its first thread. */
  function Rounds(c: seq<nat>, m: nat): (d: seq<nat>)
    requires c != []
    ensures |d| == m * |c| + 1 && d[0] == c[0]
  {
    if m == 0 then [c[0]] else c + Rounds(c, m - 1)
  }

  lemma {:induction false} RoundsWalk(s: System, c: seq<nat>, m: nat)
    requires Cycle(s, c)
    ensures Walk(s, Rounds(c, m))
  {
    if m > 0 {
      RoundsWalk(s, c, m - 1);
      var rest, d := Rounds(c, m - 1), Rounds(c, m);
      assert d == c + rest;
      forall i | 0 <= i < |d| - 1 ensures Waits(s, d[i], d[i + 1]) {
        if i < |c| {
          assert (c + [c[0]])[i] == d[i] && (c + [c[0]])[i + 1] == d[i + 1];
        } else {
          assert rest[i - |c|] == d[i] && rest[i - |c| + 1] == d[i + 1];
        }
      }
    }
  }

  lemma {:induction false} RoundsRepeat(c: seq<nat>, m: nat, k: nat)
    requires c != [] && k + |c| < |Rounds(c, m)|
    ensures Rounds(c, m)[k] == Rounds(c, m)[k + |c|]
  {
    var rest := Rounds(c, m - 1);
    assert Rounds(c, m) == c + rest;
    assert Rounds(c, m)[k + |c|] == rest[k];
    if k < |c| {
      if m >= 2 { assert rest == c + Rounds(c, m - 2); }
    } else {
      RoundsRepeat(c, m - 1, k - |c|);
    }
  }

  /** The next thread on a walk that holds what the `i`th wants. */
  ghost function HolderAfter(s: System, d: seq<nat>, i: nat): (j: nat)
    requires Walk(s, d) && i + 2 < |d|
    ensures i < j <= i + 2 && HoldEdge(s, d[i], d[j])
  {
    assert Waits(s, d[i], d[i + 1]) && Waits(s, d[i + 1], d[i + 2]);
    if HoldEdge(s, d[i], d[i + 1]) then i + 1 else i + 2
  }

  lemma HoldersAreAllowed(s: System, a: nat)
    requires Sound(s) && a < |s| && Waiting(s[a])
    ensures Allowed(s[a].may, Holding(s[a]), Want(s[a]), Shares(s[a]))
  {
    SafeAt(s[a].may, s[a].trace, s[a].at);
  }

  lemma Wanting(s: System, d: seq<nat>, i: nat)
    requires Walk(s, d) && i + 1 < |d|
    ensures d[i] < |s| && Waiting(s[d[i]])
  {
    assert Waits(s, d[i], d[i + 1]);
  }

  // ------------------------------------------------ walks past a cost cache

  /** The `i`th thread wants a project's lock, or one further on in the order. */
  ghost predicate High(s: System, d: seq<nat>, i: nat) {
    i < |d| && d[i] < |s| && Waiting(s[d[i]]) && Level(Want(s[d[i]])) >= 3
  }

  /** From there a walk never gets back to the first locks. */
  lemma HighStays(s: System, d: seq<nat>, i: nat)
    requires Sound(s) && Walk(s, d) && i + 2 < |d| && High(s, d, i)
    ensures High(s, d, i + 1)
  {
    assert Waits(s, d[i], d[i + 1]);
    Wanting(s, d, i + 1);
    HoldersAreAllowed(s, d[i + 1]);
  }

  lemma {:induction false} HighStaysFar(s: System, d: seq<nat>, i: nat, m: nat)
    requires Sound(s) && Walk(s, d) && i + m + 1 < |d| && High(s, d, i)
    ensures High(s, d, i + m)
  {
    if m > 0 {
      HighStaysFar(s, d, i, m - 1);
      HighStays(s, d, i + m - 1);
    }
  }

  /** The three threads of the one kind of circle there is: `b` drops the project's
      cost cache while it reads Studio.mu, `a` fills the cache and has to read
      Studio.mu for that, and `w` waits to write it. */
  ghost predicate Squeeze(s: System, p: string, b: nat, a: nat, w: nat) {
    b < |s| && a < |s| && w < |s| && Waiting(s[b]) && Waiting(s[a]) && Waiting(s[w]) &&
    Want(s[b]) == Cost(p) && Studio in Holding(s[b]) && Holding(s[b])[Studio] && p in s[b].may.clears &&
    Want(s[a]) == Studio && Shares(s[a]) && Cost(p) in Holding(s[a]) && p in s[a].may.fills &&
    Want(s[w]) == Studio && !Shares(s[w]) && s[w].asked && s[w].may.writes
  }

  lemma SqueezeIsCycle(s: System, p: string, b: nat, a: nat, w: nat)
    requires Sound(s) && Squeeze(s, p, b, a, w)
    ensures Cycle(s, [b, a, w])
  {
    HoldersAreAllowed(s, b);
    var d := [b, a, w] + [b];
    assert d == [b, a, w, b] && Waits(s, b, a) && Waits(s, a, w) && Waits(s, w, b);
  }

  /** Whoever a thread waits for that wants a cost cache holds it, and nobody waits
      for a thread that holds nothing. */
  lemma CostIsSqueezed(s: System, d: seq<nat>, i: nat)
    requires Sound(s) && Walk(s, d) && 0 < i && i + 3 < |d|
    requires d[i] < |s| && Waiting(s[d[i]]) && Want(s[d[i]]).Cost?
    ensures High(s, d, i + 1) || Squeeze(s, Want(s[d[i]]).id, d[i], d[i + 1], d[i + 2])
  {
    assert Waits(s, d[i - 1], d[i]) && Waits(s, d[i], d[i + 1]) && Waits(s, d[i + 1], d[i + 2]);
    HoldersAreAllowed(s, d[i - 1]);
    HoldersAreAllowed(s, d[i]);
    HoldersAreAllowed(s, d[i + 1]);
    assert HoldEdge(s, d[i - 1], d[i]) && Holding(s[d[i]]) != map[];
    if !High(s, d, i + 1) { SqueezedBy(s, d[i], d[i + 1], d[i + 2]); }
  }

  lemma SqueezedBy(s: System, b: nat, a: nat, w: nat)
    requires Sound(s) && HoldEdge(s, b, a) && Waits(s, a, w) && Want(s[b]).Cost? && Holding(s[b]) != map[]
    requires Waiting(s[a]) && Level(Want(s[a])) < 3 && (Waiting(s[w]) || Holding(s[w]) != map[])
    ensures Squeeze(s, Want(s[b]).id, b, a, w)
  {
    HoldersAreAllowed(s, b);
    HoldersAreAllowed(s, a);
    assert Want(s[a]) == Studio && Shares(s[a]) && Studio in Holding(s[b]) && Holding(s[b])[Studio];
    if HoldEdge(s, a, w) {
      assert b == w || b < w || w < b;
      assert Holding(s[w])[Studio];
    }
    assert QueueEdge(s, a, w);
    HoldersAreAllowed(s, w);
  }

  // -------------------------------------------- walks that want no cost cache

  ghost predicate NoCost(s: System, d: seq<nat>) {
    forall i :: 0 <= i < |d| && d[i] < |s| && Waiting(s[d[i]]) ==> !Want(s[d[i]]).Cost?
  }

  /** Whoever holds a chat's lock waits for nothing, so nobody waits for a chat on a
      long enough walk. */
  lemma NobodyWaitsForChat(s: System, d: seq<nat>, i: nat)
    requires Sound(s) && Walk(s, d) && i + 3 < |d|
    ensures d[i] < |s| && Waiting(s[d[i]]) && !Want(s[d[i]]).Chat?
  {
    var j := HolderAfter(s, d, i);
    Wanting(s, d, j);
    HoldersAreAllowed(s, d[j]);
  }

  /** Nobody waits by the exception: the holder of the wanted project lock lacks the
      gate, so it could only be waiting for a chat. */
  lemma GateKeepsApart(s: System, d: seq<nat>, i: nat)
    requires Sound(s) && Walk(s, d) && i + 5 < |d|
    requires d[i] < |s| && Waiting(s[d[i]]) && Want(s[d[i]]).Proj?
    ensures Meta(Want(s[d[i]]).id) !in Holding(s[d[i]])
  {
    var j := HolderAfter(s, d, i);
    var a, b := d[i], d[j];
    var l := Want(s[a]);
    NobodyWaitsForChat(s, d, j);
    HoldersAreAllowed(s, b);
    assert Meta(l.id) in Holding(s[b]);
  }

  predicate AtMost(a: Lock, b: Lock) { a == b || Before(a, b) }

  /** Both threads wait, and the second for no lesser lock. */
  ghost predicate Climbs(s: System, a: nat, b: nat) {
    a < |s| && b < |s| && Waiting(s[a]) && Waiting(s[b]) && AtMost(Want(s[a]), Want(s[b]))
  }

  lemma ClimbsOn(s: System, a: nat, b: nat, c: nat)
    requires Climbs(s, a, b) && Climbs(s, b, c)
    ensures Climbs(s, a, c)
  {
    var x, y, z := Want(s[a]), Want(s[b]), Want(s[c]);
    if x != y && y != z { BeforeIsTransitive(x, y, z); }
  }

  /** Along such a walk the wanted locks climb, strictly past every held lock. */
  lemma WalkClimbs(s: System, d: seq<nat>, i: nat)
    requires Sound(s) && Walk(s, d) && NoCost(s, d) && i + 6 < |d|
    ensures Climbs(s, d[i], d[i + 1])
    ensures HoldEdge(s, d[i], d[i + 1]) ==> Before(Want(s[d[i]]), Want(s[d[i + 1]]))
  {
    assert Waits(s, d[i], d[i + 1]);
    Wanting(s, d, i + 1);
    if HoldEdge(s, d[i], d[i + 1]) {
      HoldersAreAllowed(s, d[i + 1]);
      if Want(s[d[i + 1]]).Proj? { GateKeepsApart(s, d, i + 1); }
    }
  }

  lemma {:induction false} WalkClimbsFar(s: System, d: seq<nat>, i: nat, m: nat)
    requires Sound(s) && Walk(s, d) && NoCost(s, d) && i + m + 6 < |d|
    ensures Climbs(s, d[i], d[i + m])
  {
    if m == 0 {
      WalkClimbs(s, d, i);
    } else {
      WalkClimbsFar(s, d, i, m - 1);
      WalkClimbs(s, d, i + m - 1);
      ClimbsOn(s, d[i], d[i + m - 1], d[i + m]);
    }
  }

  /** The first or the second thread of a walk waits for a holder, not for a writer
      ahead of it. */
  lemma SoonHeld(s: System, d: seq<nat>) returns (k: nat)
    requires Walk(s, d) && |d| > 2
    ensures k <= 1 && HoldEdge(s, d[k], d[k + 1])
  {
    assert Waits(s, d[0], d[1]) && Waits(s, d[1], d[2]);
    k := if HoldEdge(s, d[0], d[1]) then 0 else 1;
  }

  lemma CyclesWantCosts(s: System, c: seq<nat>)
    requires Sound(s) && Cycle(s, c)
    ensures !NoCost(s, Rounds(c, 9))
  {
    var d := Rounds(c, 9);
    if NoCost(s, d) {
      RoundsWalk(s, c, 9);
      var k := SoonHeld(s, d);
      WalkClimbs(s, d, k);
      WalkClimbsFar(s, d, k + 1, |c| - 1);
      RoundsRepeat(c, 9, k);
      var x, y := Want(s[d[k]]), Want(s[d[k + 1]]);
      if x != y { BeforeIsTransitive(x, y, x); }
      BeforeIsStrict(x);
      assert false;
    }
  }

  // ----------------------------------------------------------------- cycles

  lemma {:induction false} RoundsAreThreads(c: seq<nat>, m: nat, i: nat)
    requires c != [] && i < |Rounds(c, m)|
    ensures Rounds(c, m)[i] in c
  {
    if m > 0 && i >= |c| { RoundsAreThreads(c, m - 1, i - |c|); }
  }

  lemma CycleIsSqueezed(s: System, c: seq<nat>)
    requires Sound(s) && Cycle(s, c)
    ensures Squeezed(s)
  {
    CyclesWantCosts(s, c);
    var d := Rounds(c, 9);
    var i :| 0 <= i < |d| && d[i] < |s| && Waiting(s[d[i]]) && Want(s[d[i]]).Cost?;
    RoundsAreThreads(c, 9, i);
    var j :| 0 <= j < |c| && c[j] == d[i];
    CostCycleIsSqueezed(s, c, j);
  }

  lemma CostCycleIsSqueezed(s: System, c: seq<nat>, j: nat)
    requires Sound(s) && Cycle(s, c) && j < |c| && c[j] < |s| && Waiting(s[c[j]]) && Want(s[c[j]]).Cost?
    ensures Squeezed(s)
  {
    var d, i := Rounds(c, 9), j + |c|;
    RoundsWalk(s, c, 9);
    assert d[j] == c[j];
    RoundsRepeat(c, 9, j);
    RoundsRepeat(c, 9, i);
    CostIsSqueezed(s, d, i);
    if High(s, d, i + 1) { HighStaysFar(s, d, i + 1, |c| - 1); }
  }

  /** Threads wait for each other in a circle, or one waits for itself. */
  ghost predicate Circular(s: System) { exists c :: Cycle(s, c) }

  ghost predicate Squeezed(s: System) { exists p, b, a, w :: Squeeze(s, p, b, a, w) }

  lemma CircularIsSqueezed(s: System)
    requires Sound(s) && Circular(s)
    ensures Squeezed(s)
  {
    var c :| Cycle(s, c);
    CycleIsSqueezed(s, c);
  }

  lemma SqueezedIsCircular(s: System)
    requires Sound(s) && Squeezed(s)
    ensures Circular(s)
  {
    var p, b, a, w :| Squeeze(s, p, b, a, w);
    SqueezeIsCycle(s, p, b, a, w);
  }

  /** Whatever the threads, as long as each keeps the discipline: they wait for each
      other in a circle exactly when one fills a project's cost cache while another
      drops it and a third waits to write Studio.mu. */
  lemma CyclesExactly(steps: seq<Step>, s: System)
    requires Leads([], steps, s)
    ensures Circular(s) <==> Squeezed(s)
  {
    SoundAfter([], steps, s);
    if Circular(s) { CircularIsSqueezed(s); }
    if Squeezed(s) { SqueezedIsCircular(s); }
  }
}
