/** The locks that each operation of the studio takes, on every path through it
    (internal/studio/delegation.go, app.go, project.go, archived_projects.go,
    session_archives.go), that each keeps the discipline of LockOrder, and which
    operations can end up waiting for each other.

    Branches and loops appear as free parameters of an operation: which stages it
    reaches, and which locks it takes one at a time in between. */
module LockTraces {
  import opened LockOrder
  import opened Text

  // A lock taken and dropped again before the next one is taken.
  datatype Use = Use(lock: Lock, shared: bool)

  datatype Code =
    | Each(uses: seq<Use>)                           // one lock at a time
    | With(lock: Lock, shared: bool, body: Code)     // the body, under the lock
    | Both(first: Code, second: Code)

  const SKIP := Each([])

  function Uses(us: seq<Use>): seq<Act> {
    if us == [] then [] else [Take(us[0].lock, us[0].shared), Drop(us[0].lock)] + Uses(us[1..])
  }

  function Trace(c: Code): seq<Act> {
    match c
    case Each(us) => Uses(us)
    case With(l, shared, body) => [Take(l, shared)] + (Trace(body) + [Drop(l)])
    case Both(a, b) => Trace(a) + Trace(b)
  }

  // --------------------------------------------------------------- discipline

  ghost predicate MayUse(may: Rights, held: Held, us: seq<Use>) {
    forall i :: 0 <= i < |us| ==> Allowed(may, held, us[i].lock, us[i].shared)
  }

  ghost predicate Orderly(may: Rights, held: Held, c: Code)
    decreases c
  {
    match c
    case Each(us) => MayUse(may, held, us)
    case With(l, shared, body) => Allowed(may, held, l, shared) && Orderly(may, held[l := shared], body)
    case Both(a, b) => Orderly(may, held, a) && Orderly(may, held, b)
  }

  lemma TakeSafe(may: Rights, held: Held, l: Lock, shared: bool)
    requires Allowed(may, held, l, shared)
    ensures Safe(may, held, [Take(l, shared)]) && After(held, [Take(l, shared)]) == held[l := shared]
    ensures l !in held && held[l := shared] - {l} == held
  {
    BeforeIsStrict(l);
    assert [Take(l, shared)][1..] == [];
  }

  lemma DropSafe(may: Rights, held: Held, l: Lock)
    ensures Safe(may, held, [Drop(l)]) && After(held, [Drop(l)]) == held - {l}
  {
  }

  lemma ScopeIsSafe(may: Rights, held: Held, l: Lock, shared: bool, inner: seq<Act>)
    requires Allowed(may, held, l, shared)
    requires Safe(may, held[l := shared], inner) && After(held[l := shared], inner) == held[l := shared]
    ensures var t := [Take(l, shared)] + (inner + [Drop(l)]);
            Safe(may, held, t) && After(held, t) == held
  {
    TakeSafe(may, held, l, shared);
    DropSafe(may, held[l := shared], l);
    SafeConcat(may, held[l := shared], inner, [Drop(l)]);
    SafeConcat(may, held, [Take(l, shared)], inner + [Drop(l)]);
  }

  lemma {:induction false} UsesAreSafe(may: Rights, held: Held, us: seq<Use>)
    requires MayUse(may, held, us)
    ensures Safe(may, held, Uses(us)) && After(held, Uses(us)) == held
  {
    if us != [] {
      var l, shared := us[0].lock, us[0].shared;
      UsesAreSafe(may, held, us[1..]);
      ScopeIsSafe(may, held, l, shared, []);
      assert [Take(l, shared)] + ([] + [Drop(l)]) == [Take(l, shared), Drop(l)];
      SafeConcat(may, held, [Take(l, shared), Drop(l)], Uses(us[1..]));
    }
  }

  /** Orderly code keeps the discipline and ends holding what it began with. */
  lemma {:induction false} OrderlyIsSafe(may: Rights, held: Held, c: Code)
    requires Orderly(may, held, c)
    ensures Safe(may, held, Trace(c)) && After(held, Trace(c)) == held
    decreases c
  {
    match c {
      case Each(us) => UsesAreSafe(may, held, us);
      case With(l, shared, body) =>
        OrderlyIsSafe(may, held[l := shared], body);
        ScopeIsSafe(may, held, l, shared, Trace(body));
      case Both(a, b) =>
        OrderlyIsSafe(may, held, a);
        OrderlyIsSafe(may, held, b);
        SafeConcat(may, held, Trace(a), Trace(b));
    }
  }

  // --------------------------------------------------------------- operations

  /** The budget check of a start (`reached`: the target enforces a budget at known
      prices) or of a turn: it finds the cost cache filled, or fills it from the
      project's chats. */
  datatype Budget = Budget(reached: bool, unseeded: bool, chats: seq<Use>)

  datatype Op =
    // known: the target exists; found, publish, stored: stages reached; look: checks
    // and child creation; undo: after a refused queue; later: announcements
    | Start(from: string, to: string, child: string, known: bool, budget: Budget, found: bool, look: seq<Use>,
            publish: bool, stored: bool, undo: seq<Use>, later: seq<Use>)
    // asked: the run was a question, whose chat is archived in the end
    | Monitor(project: string, watch: seq<Use>, asked: bool, chats: seq<Use>, later: seq<Use>)
    // cancel: what cancelling each run on the list takes
    | Delete(project: string, look: seq<Use>, cancel: seq<Use>, later: seq<Use>)
    // cleared: it got as far as dropping the cost cache
    | Clear(project: string, uses: seq<Use>, cleared: bool, later: seq<Use>)
    | Stop(project: string, uses: seq<Use>, later: seq<Use>)
    | Message(project: string, chat: string)              // start or queue a turn
    | Spend(project: string, budget: Budget)              // a turn's budget check, or its bill
    | Archive(project: string, chats: seq<Use>, write: seq<Use>, closing: seq<Use>, rest: seq<Use>)
    | Alone(uses: seq<Use>)                               // a cancellation, a batch reservation

  predicate ForChat(us: seq<Use>) { forall i :: 0 <= i < |us| ==> us[i].lock.Chat? }
  predicate ForCancel(us: seq<Use>) {
    forall i :: 0 <= i < |us| ==> us[i].lock.Owners? || us[i].lock.Runs? || us[i].lock.Chat?
  }
  predicate ForLook(us: seq<Use>) { forall i :: 0 <= i < |us| ==> us[i].lock.Proj? || us[i].lock.Chat? }
  predicate ForInner(us: seq<Use>) { forall i :: 0 <= i < |us| ==> Level(us[i].lock) >= 3 }
  predicate ForAny(us: seq<Use>) {
    forall i :: 0 <= i < |us| ==>
      (us[i].lock.Meta? || us[i].lock.Cost? ==> !us[i].shared) && (us[i].lock.Studio? ==> us[i].shared)
  }

  predicate Valid(op: Op) {
    match op
    case Start(from, to, _, _, budget, _, look, _, _, undo, later) =>
      from != to && ForChat(budget.chats) && ForLook(look) && ForInner(undo) && ForAny(later)
    case Monitor(_, watch, _, chats, later) => ForAny(watch) && ForChat(chats) && ForAny(later)
    case Delete(_, look, cancel, later) => ForChat(look) && ForCancel(cancel) && ForAny(later)
    case Clear(_, uses, _, later) => ForInner(uses) && ForAny(later)
    case Stop(_, uses, later) => ForInner(uses) && ForAny(later)
    case Message(_, _) => true
    case Spend(_, budget) => ForChat(budget.chats)
    case Archive(_, chats, write, closing, rest) => ForChat(chats) && ForInner(write) && ForChat(closing) && ForInner(rest)
    case Alone(uses) => ForAny(uses)
  }

  /** The operation fills the project's cost cache. */
  predicate Fills(op: Op, p: string) {
    (op.Start? && op.to == p && op.known && op.budget.reached && op.budget.unseeded) ||
    (op.Spend? && op.project == p && op.budget.reached && op.budget.unseeded)
  }

  /** The operation drops the project's cost cache while it reads Studio.mu. */
  predicate Clears(op: Op, p: string) { op.Clear? && op.project == p && op.cleared }

  function RightsOf(op: Op): Rights {
    Rights(op.Archive?,
           if op.Start? && Fills(op, op.to) then {op.to} else if op.Spend? && Fills(op, op.project) then {op.project} else {},
           if op.Clear? && op.cleared then {op.project} else {})
  }

  lemma RightsMean(op: Op, p: string)
    ensures p in RightsOf(op).fills <==> Fills(op, p)
    ensures p in RightsOf(op).clears <==> Clears(op, p)
  {
  }

  // The first and second metadata lock of a start, in project ID order.
  function First(from: string, to: string): Lock { Meta(if Less(to, from) then to else from) }
  function Second(from: string, to: string): Lock { Meta(if Less(to, from) then from else to) }

  function When(reached: bool, c: Code): Code { if reached then c else SKIP }

  /** totalCostUSD and bumpTotalCostUSD: an unfilled cache is summed over the chats. */
  function Total(project: string, budget: Budget): Code {
    With(Cost(project), false,
         When(budget.unseeded, Each([Use(Studio, true), Use(Proj(project), true)] + budget.chats)))
  }

  /** delegationBudgetAllows, and the same check of a turn. */
  function Check(project: string, budget: Budget): Code {
    Both(Each([Use(Proj(project), true), Use(Proj(project), true)]), When(budget.reached, Total(project, budget)))
  }

  /** startMessageWithQueueEventPermissionTopologyLocked: the queue claim. */
  function Claim(project: string, chat: string): Code {
    With(Proj(project), true, Each([Use(Chat(chat), false)]))
  }

  /** publishAndStartDelegation: delegationMu, then the store, then the queue. */
  function Publish(op: Op): Code
    requires op.Start?
  {
    With(Owners, false, Both(Each([Use(Runs, false)]), When(op.stored, Claim(op.to, op.child))))
  }

  /** startDelegation between its two metadata locks. */
  function Topology(op: Op): Code
    requires op.Start?
  {
    Both(Each(op.look), When(op.publish, Both(Publish(op), Each(op.undo))))
  }

  /** startDelegation from where it reads Studio.mu for good. */
  function Locked(op: Op): Code
    requires op.Start?
  {
    With(Studio, true,
         When(op.found, With(First(op.from, op.to), false, With(Second(op.from, op.to), false, Topology(op)))))
  }

  /** startDelegation up to there: it looks the target up and checks its budget. */
  function Opening(op: Op): Code
    requires op.Start?
  {
    Both(Each([Use(Studio, true)]), When(op.known, Check(op.to, op.budget)))
  }

  /** ArchiveChatSession, by which the monitor of a question leaves no tab behind. */
  function Retire(project: string, chats: seq<Use>): Code {
    Both(Each([Use(Studio, true)]), With(Meta(project), false, With(Proj(project), true, Each(chats))))
  }

  /** ClearHistory: the cost cache is dropped before Studio.mu is. */
  function Clearing(op: Op): Code
    requires op.Clear?
  {
    With(Studio, true,
         With(Meta(op.project), false,
              Both(Each(op.uses), When(op.cleared, Each([Use(Cost(op.project), false)])))))
  }

  function Archiving(op: Op): Code
    requires op.Archive?
  {
    With(Studio, false,
         Both(Both(With(Proj(op.project), true, Each(op.chats)), Each(op.write)),
              Both(With(Proj(op.project), true, Each(op.closing)), Each(op.rest))))
  }

  function Body(op: Op): Code {
    match op
    case Start(_, _, _, known, _, _, _, _, _, _, later) =>
      Both(Opening(op), When(known, Both(Locked(op), Each(later))))
    case Monitor(p, watch, asked, chats, later) => Both(Each(watch), Both(When(asked, Retire(p, chats)), Each(later)))
    case Delete(p, look, cancel, later) =>
      Both(With(Studio, true, With(Meta(p), false, With(Proj(p), false, Both(Each(look), Each(cancel))))), Each(later))
    case Clear(_, _, _, later) => Both(Clearing(op), Each(later))
    case Stop(p, uses, later) => Both(With(Studio, true, With(Meta(p), false, Each(uses))), Each(later))
    case Message(p, chat) => With(Studio, true, With(Meta(p), false, Claim(p, chat)))
    case Spend(p, budget) => Check(p, budget)
    case Archive(_, _, _, _, _) => Archiving(op)
    case Alone(us) => Each(us)
  }

  // ------------------------------------------------- every operation is orderly

  lemma OrderlyClaim(may: Rights, held: Held, project: string, chat: string)
    requires Meta(project) in held
    requires forall h :: h in held ==> h.Studio? || h.Meta? || h.Owners?
    ensures Orderly(may, held, Claim(project, chat))
  {
    assert Orderly(may, held[Proj(project) := true], Each([Use(Chat(chat), false)]));
  }

  lemma OrderlyPublish(may: Rights, held: Held, op: Op)
    requires op.Start? && held.Keys == {Studio, Meta(op.from), Meta(op.to)}
    ensures Orderly(may, held, Publish(op))
  {
    var inner := held[Owners := false];
    assert Orderly(may, inner, Each([Use(Runs, false)]));
    OrderlyClaim(may, inner, op.to, op.child);
    assert Orderly(may, inner, When(op.stored, Claim(op.to, op.child)));
  }

  lemma OrderlyTopology(may: Rights, held: Held, op: Op)
    requires op.Start? && Valid(op) && held.Keys == {Studio, Meta(op.from), Meta(op.to)}
    ensures Orderly(may, held, Topology(op))
  {
    OrderlyPublish(may, held, op);
    assert Orderly(may, held, Each(op.look));
    assert Orderly(may, held, Both(Publish(op), Each(op.undo)));
  }

  lemma OrderlyLocked(may: Rights, op: Op)
    requires op.Start? && Valid(op)
    ensures Orderly(may, map[], Locked(op))
  {
    LessIsTotal(op.from, op.to);
    if Less(op.to, op.from) { LessIsStrict(op.to, op.from); }
    var first, second := First(op.from, op.to), Second(op.from, op.to);
    var h1: Held := map[Studio := true];
    var h2 := h1[first := false];
    OrderlyTopology(may, h2[second := false], op);
    assert Orderly(may, h2, With(second, false, Topology(op)));
    assert Orderly(may, h1, With(first, false, With(second, false, Topology(op))));
  }

  lemma OrderlyCheck(may: Rights, p: string, budget: Budget)
    requires ForChat(budget.chats) && (budget.reached && budget.unseeded ==> p in may.fills)
    ensures Orderly(may, map[], Check(p, budget))
  {
    var held: Held := map[Cost(p) := false];
    if budget.reached {
      assert Orderly(may, held, When(budget.unseeded, Each([Use(Studio, true), Use(Proj(p), true)] + budget.chats)));
    }
  }

  lemma OrderlyStart(op: Op)
    requires op.Start? && Valid(op)
    ensures Orderly(RightsOf(op), map[], Body(op))
  {
    if op.known { OrderlyCheck(RightsOf(op), op.to, op.budget); OrderlyLocked(RightsOf(op), op); }
    assert Orderly(RightsOf(op), map[], Opening(op));
    assert Orderly(RightsOf(op), map[], Each(op.later));
  }

  lemma OrderlyUnderProject(may: Rights, p: string, us: seq<Use>, shared: bool, writing: Held)
    requires ForCancel(us) && writing.Keys <= {Studio, Meta(p)} && (Meta(p) in writing || ForChat(us))
    ensures Orderly(may, writing[Proj(p) := shared], Each(us))
  {
  }

  lemma OrderlyUnderMeta(may: Rights, p: string, us: seq<Use>)
    requires ForInner(us)
    ensures Orderly(may, map[Studio := true, Meta(p) := false], Each(us))
  {
  }

  lemma OrderlyMonitor(op: Op)
    requires op.Monitor? && Valid(op)
    ensures Orderly(RightsOf(op), map[], Body(op))
  {
    var p, may := op.project, RightsOf(op);
    var h1: Held := map[Meta(p) := false];
    OrderlyUnderProject(may, p, op.chats, true, h1);
    assert Orderly(may, h1, With(Proj(p), true, Each(op.chats)));
    assert Orderly(may, map[], With(Meta(p), false, With(Proj(p), true, Each(op.chats))));
    assert Orderly(may, map[], Each([Use(Studio, true)]));
    assert Orderly(may, map[], Retire(p, op.chats));
  }

  lemma OrderlyDelete(op: Op)
    requires op.Delete? && Valid(op)
    ensures Orderly(RightsOf(op), map[], Body(op))
  {
    var p, inner, may := op.project, Both(Each(op.look), Each(op.cancel)), RightsOf(op);
    var h2: Held := map[Studio := true, Meta(p) := false];
    OrderlyUnderProject(may, p, op.look, false, h2);
    OrderlyUnderProject(may, p, op.cancel, false, h2);
    assert Orderly(may, h2, With(Proj(p), false, inner));
    assert Orderly(may, map[Studio := true], With(Meta(p), false, With(Proj(p), false, inner)));
  }

  lemma OrderlyClear(op: Op)
    requires op.Clear? && Valid(op)
    ensures Orderly(RightsOf(op), map[], Body(op))
  {
    var p, may := op.project, RightsOf(op);
    var inner := Both(Each(op.uses), When(op.cleared, Each([Use(Cost(p), false)])));
    OrderlyUnderMeta(may, p, op.uses);
    assert Orderly(may, map[Studio := true, Meta(p) := false], inner);
    assert Orderly(may, map[Studio := true], With(Meta(p), false, inner));
  }

  lemma OrderlyArchive(op: Op)
    requires op.Archive? && Valid(op)
    ensures Orderly(RightsOf(op), map[], Body(op))
  {
    var p, may, held: Held := op.project, RightsOf(op), map[Studio := false];
    OrderlyUnderProject(may, p, op.chats, true, held);
    OrderlyUnderProject(may, p, op.closing, true, held);
    assert Orderly(may, held, With(Proj(p), true, Each(op.chats)));
    assert Orderly(may, held, With(Proj(p), true, Each(op.closing)));
    assert Orderly(may, held, Each(op.write)) && Orderly(may, held, Each(op.rest));
  }

  lemma OrderlyStop(op: Op)
    requires op.Stop? && Valid(op)
    ensures Orderly(RightsOf(op), map[], Body(op))
  {
    OrderlyUnderMeta(RightsOf(op), op.project, op.uses);
    assert Orderly(RightsOf(op), map[Studio := true], With(Meta(op.project), false, Each(op.uses)));
  }

  lemma OrderlyMessage(op: Op)
    requires op.Message?
    ensures Orderly(RightsOf(op), map[], Body(op))
  {
    var p := op.project;
    OrderlyClaim(RightsOf(op), map[Studio := true, Meta(p) := false], p, op.chat);
    assert Orderly(RightsOf(op), map[Studio := true], With(Meta(p), false, Claim(p, op.chat)));
  }

  lemma OrderlyOp(op: Op)
    requires Valid(op)
    ensures Orderly(RightsOf(op), map[], Body(op))
  {
    match op
    case Start(_, _, _, _, _, _, _, _, _, _, _) => OrderlyStart(op);
    case Monitor(_, _, _, _, _) => OrderlyMonitor(op);
    case Delete(_, _, _, _) => OrderlyDelete(op);
    case Clear(_, _, _, _) => OrderlyClear(op);
    case Stop(_, _, _) => OrderlyStop(op);
    case Message(_, _) => OrderlyMessage(op);
    case Spend(p, budget) => OrderlyCheck(RightsOf(op), p, budget);
    case Archive(_, _, _, _, _) => OrderlyArchive(op);
    case Alone(_) =>
  }

  // ------------------------------------------------------------ their runs

  /** Every thread runs one of the given operations. */
  ghost predicate Program(ops: iset<Op>, steps: seq<Step>) {
    forall i :: 0 <= i < |steps| && steps[i].Begin? ==> Begins(ops, steps[i])
  }

  ghost predicate Begins(ops: iset<Op>, step: Step) {
    exists op :: op in ops && step == Begin(RightsOf(op), Trace(Body(op)))
  }

  /** The order of the threads' steps is possible: every lock is free when it is
      taken. */
  ghost predicate Possible(s: System, steps: seq<Step>)
    decreases |steps|
  {
    steps == [] ||
    ((!steps[0].Begin? ==> Can(s, steps[0])) && Possible(Next(s, steps[0]), steps[1..]))
  }

  ghost function Outcome(s: System, steps: seq<Step>): System
    decreases |steps|
  {
    if steps == [] then s else Outcome(Next(s, steps[0]), steps[1..])
  }

  ghost predicate AllValid(ops: iset<Op>) { forall op :: op in ops ==> Valid(op) }

  lemma {:induction false} ProgramsLead(ops: iset<Op>, s: System, steps: seq<Step>)
    requires AllValid(ops) && Program(ops, steps) && Possible(s, steps)
    ensures Leads(s, steps, Outcome(s, steps))
    decreases |steps|
  {
    if steps != [] {
      if steps[0].Begin? {
        var op :| op in ops && steps[0] == Begin(RightsOf(op), Trace(Body(op)));
        OrderlyOp(op);
        OrderlyIsSafe(RightsOf(op), map[], Body(op));
      }
      assert Program(ops, steps[1..]);
      ProgramsLead(ops, Next(s, steps[0]), steps[1..]);
    }
  }

  ghost predicate Ours(ops: iset<Op>, s: System) {
    forall t :: 0 <= t < |s| ==> exists op :: op in ops && s[t].may == RightsOf(op)
  }

  lemma {:induction false} OutcomeIsOurs(ops: iset<Op>, s: System, steps: seq<Step>)
    requires Program(ops, steps) && Ours(ops, s)
    ensures Ours(ops, Outcome(s, steps))
    decreases |steps|
  {
    if steps != [] {
      if steps[0].Begin? { assert Begins(ops, steps[0]); }
      assert Program(ops, steps[1..]);
      OutcomeIsOurs(ops, Next(s, steps[0]), steps[1..]);
    }
  }

  /** Some order of steps of these operations leads to `s`. */
  ghost predicate Reach(ops: iset<Op>, s: System) {
    exists steps :: Program(ops, steps) && Possible([], steps) && Outcome([], steps) == s
  }

  lemma ReachIsSound(ops: iset<Op>, s: System)
    requires AllValid(ops) && Reach(ops, s)
    ensures Sound(s) && Ours(ops, s) && (Circular(s) <==> Squeezed(s))
  {
    var steps :| Program(ops, steps) && Possible([], steps) && Outcome([], steps) == s;
    ProgramsLead(ops, [], steps);
    SoundAfter([], steps, s);
    OutcomeIsOurs(ops, [], steps);
    CyclesExactly(steps, s);
  }

  lemma {:induction false} OneMore(s: System, steps: seq<Step>, step: Step)
    requires Possible(s, steps) && (!step.Begin? ==> Can(Outcome(s, steps), step))
    ensures Possible(s, steps + [step]) && Outcome(s, steps + [step]) == Next(Outcome(s, steps), step)
    decreases |steps|
  {
    if steps == [] {
      assert [step][1..] == [];
    } else {
      assert (steps + [step])[1..] == steps[1..] + [step];
      OneMore(Next(s, steps[0]), steps[1..], step);
    }
  }

  lemma ReachNext(ops: iset<Op>, s: System, step: Step)
    requires Reach(ops, s) && (if step.Begin? then Begins(ops, step) else Can(s, step))
    ensures Reach(ops, Next(s, step))
  {
    var steps :| Program(ops, steps) && Possible([], steps) && Outcome([], steps) == s;
    OneMore([], steps, step);
    assert Program(ops, steps + [step]);
  }

  // ------------------------------------------------------- when they may hang

  /** The operations include one that fills a project's cost cache, one that drops it
      under Studio.mu, and one that writes Studio.mu. */
  ghost predicate MaySqueeze(ops: iset<Op>) {
    exists p, x, y, z :: x in ops && Fills(x, p) && y in ops && Clears(y, p) && z in ops && z.Archive?
  }

  lemma CircularMaySqueeze(ops: iset<Op>, s: System)
    requires AllValid(ops) && Reach(ops, s) && Circular(s)
    ensures MaySqueeze(ops)
  {
    ReachIsSound(ops, s);
    var p: string, b: nat, a: nat, w: nat :| Squeeze(s, p, b, a, w);
    var y :| y in ops && s[b].may == RightsOf(y);
    var x :| x in ops && s[a].may == RightsOf(x);
    var z :| z in ops && s[w].may == RightsOf(z);
    RightsMean(x, p);
    RightsMean(y, p);
  }

  /** No other thread is in the way of the act. */
  ghost predicate InNobodysWay(s: System, t: nat, act: Act) {
    act.Take? ==>
      forall u :: 0 <= u < |s| && u != t && Going(s[u]) && act.lock in Holding(s[u]) ==>
        act.shared && Holding(s[u])[act.lock]
  }

  function Moved(s: System, t: nat, k: nat): System
    requires t < |s|
  {
    s[t := s[t].(at := s[t].at + k)]
  }

  /** A thread that nobody is in the way of can run on. */
  lemma {:induction false} RunsOn(ops: iset<Op>, s: System, t: nat, k: nat)
    requires AllValid(ops) && Reach(ops, s) && t < |s| && !s[t].asked && s[t].at + k <= |s[t].trace|
    requires forall i :: s[t].at <= i < s[t].at + k ==> InNobodysWay(s, t, s[t].trace[i])
    ensures Reach(ops, Moved(s, t, k))
  {
    if k == 0 {
      assert Moved(s, t, 0) == s;
    } else {
      RunsOn(ops, s, t, k - 1);
      RunsOneMore(ops, s, t, k - 1);
    }
  }

  lemma RunsOneMore(ops: iset<Op>, s: System, t: nat, k: nat)
    requires AllValid(ops) && t < |s| && !s[t].asked && s[t].at + k < |s[t].trace| && Reach(ops, Moved(s, t, k))
    requires InNobodysWay(s, t, s[t].trace[s[t].at + k])
    ensures Reach(ops, Moved(s, t, k + 1))
  {
    ReachIsKept(ops, Moved(s, t, k));
    MayAdvance(s, t, k);
    ReachNext(ops, Moved(s, t, k), Advance(t));
    MovesOn(s, t, k);
  }

  lemma ReachIsKept(ops: iset<Op>, s: System)
    requires AllValid(ops) && Reach(ops, s)
    ensures Sound(s)
  {
    ReachIsSound(ops, s);
  }

  lemma MovesOn(s: System, t: nat, k: nat)
    requires t < |s| && !s[t].asked && Can(Moved(s, t, k), Advance(t))
    ensures Next(Moved(s, t, k), Advance(t)) == Moved(s, t, k + 1)
  {
  }

  lemma MayAdvance(s: System, t: nat, k: nat)
    requires t < |s| && s[t].at + k < |s[t].trace| && Sound(Moved(s, t, k))
    requires InNobodysWay(s, t, s[t].trace[s[t].at + k])
    ensures Can(Moved(s, t, k), Advance(t))
  {
    var s' := Moved(s, t, k);
    assert s'[t].trace == s[t].trace && s'[t].at == s[t].at + k;
    if Waiting(s'[t]) {
      HoldersAreAllowed(s', t);
      BeforeIsStrict(Want(s'[t]));
      assert Want(s'[t]) !in Holding(s'[t]);
    }
  }

  /** What a filling operation does first, up to where it asks for Studio.mu. */
  lemma FillBegins(x: Op, p: string) returns (pre: seq<Act>)
    requires Fills(x, p)
    ensures pre + [Take(Studio, true)] <= Trace(Body(x)) && After(map[], pre) == map[Cost(p) := false]
    ensures forall i :: 0 <= i < |pre| && pre[i].Take? ==>
              pre[i].lock in {Studio, Proj(p), Cost(p)} && (pre[i].lock == Studio ==> pre[i].shared)
  {
    var looks: seq<Act> := [Take(Proj(p), true), Drop(Proj(p)), Take(Proj(p), true), Drop(Proj(p))];
    var first: seq<Act> := if x.Start? then [Take(Studio, true), Drop(Studio)] else [];
    pre := first + looks + [Take(Cost(p), false)];
    CheckBegins(p, x.budget);
    var check := Trace(Check(p, x.budget));
    if x.Start? {
      OneUse(Use(Studio, true));
      assert Trace(Opening(x)) == first + check;
      assert Trace(Body(x)) == (first + check) + Trace(Both(Locked(x), Each(x.later)));
    } else {
      assert Trace(Body(x)) == first + check;
    }
    PrefixOf(first, looks + [Take(Cost(p), false), Take(Studio, true)], check, Trace(Body(x)));
    assert first + (looks + [Take(Cost(p), false), Take(Studio, true)]) == pre + [Take(Studio, true)];
    FillHolds(p, first, looks);
  }

  lemma PrefixOf(a: seq<Act>, b: seq<Act>, c: seq<Act>, whole: seq<Act>)
    requires b <= c && a + c <= whole
    ensures a + b <= whole
  {
  }

  lemma CheckBegins(p: string, budget: Budget)
    requires budget.reached && budget.unseeded
    ensures [Take(Proj(p), true), Drop(Proj(p)), Take(Proj(p), true), Drop(Proj(p)),
             Take(Cost(p), false), Take(Studio, true)] <= Trace(Check(p, budget))
  {
    var look := Use(Proj(p), true);
    assert [look, look][1..] == [look];
    OneUse(look);
    assert Uses([look, look]) == [Take(Proj(p), true), Drop(Proj(p)), Take(Proj(p), true), Drop(Proj(p))];
    var us := [Use(Studio, true), look] + budget.chats;
    assert us[0] == Use(Studio, true);
    assert [Take(Studio, true)] <= Uses(us);
    assert Trace(Total(p, budget)) == [Take(Cost(p), false)] + (Uses(us) + [Drop(Cost(p))]);
  }

  lemma FillHolds(p: string, first: seq<Act>, looks: seq<Act>)
    requires looks == [Take(Proj(p), true), Drop(Proj(p)), Take(Proj(p), true), Drop(Proj(p))]
    requires first == [Take(Studio, true), Drop(Studio)] || first == []
    ensures After(map[], first + looks + [Take(Cost(p), false)]) == map[Cost(p) := false]
  {
    var may := Rights(false, {}, {});
    AfterPair(map[], Studio, true);
    AfterPair(map[], Proj(p), true);
    SafeConcat(may, map[], [Take(Proj(p), true), Drop(Proj(p))], [Take(Proj(p), true), Drop(Proj(p))]);
    assert looks == [Take(Proj(p), true), Drop(Proj(p))] + [Take(Proj(p), true), Drop(Proj(p))];
    SafeConcat(may, map[], first, looks);
    SafeConcat(may, map[], first + looks, [Take(Cost(p), false)]);
    OneAct(map[], Take(Cost(p), false));
  }

  lemma OneUse(u: Use)
    ensures Uses([u]) == [Take(u.lock, u.shared), Drop(u.lock)]
  {
    assert [u][1..] == [];
  }

  lemma OneAct(held: Held, a: Act)
    ensures After(held, [a]) == Then(held, a)
  {
    assert [a][1..] == [];
  }

  lemma AfterPair(held: Held, l: Lock, shared: bool)
    requires l !in held
    ensures After(held, [Take(l, shared), Drop(l)]) == held
  {
    assert [Take(l, shared), Drop(l)][1..] == [Drop(l)];
    OneAct(held[l := shared], Drop(l));
    assert held[l := shared] - {l} == held;
  }

  /** What clearing does first, up to where it asks for the cost cache. */
  lemma ClearBegins(y: Op, p: string) returns (pre: seq<Act>)
    requires Clears(y, p) && Valid(y)
    ensures pre + [Take(Cost(p), false)] <= Trace(Body(y))
    ensures After(map[], pre) == map[Studio := true, Meta(p) := false]
  {
    var us := Uses(y.uses);
    pre := [Take(Studio, true), Take(Meta(p), false)] + us;
    OneUse(Use(Cost(p), false));
    var drop: seq<Act> := [Take(Cost(p), false), Drop(Cost(p))];
    var inner := Both(Each(y.uses), When(y.cleared, Each([Use(Cost(p), false)])));
    assert Trace(inner) == us + drop;
    assert Trace(With(Meta(p), false, inner)) == [Take(Meta(p), false)] + ((us + drop) + [Drop(Meta(p))]);
    assert Trace(Clearing(y)) == [Take(Studio, true)] + (Trace(With(Meta(p), false, inner)) + [Drop(Studio)]);
    assert Trace(Clearing(y)) == pre + drop + [Drop(Meta(p))] + [Drop(Studio)];
    ClearHolds(y, p, us);
  }

  lemma ClearHolds(y: Op, p: string, us: seq<Act>)
    requires Clears(y, p) && Valid(y) && us == Uses(y.uses)
    ensures After(map[], [Take(Studio, true), Take(Meta(p), false)] + us) == map[Studio := true, Meta(p) := false]
  {
    var may, locks: seq<Act> := RightsOf(y), [Take(Studio, true), Take(Meta(p), false)];
    assert locks[1..] == [Take(Meta(p), false)];
    OneAct(map[Studio := true], Take(Meta(p), false));
    assert After(map[], locks) == map[Studio := true, Meta(p) := false];
    OrderlyUnderMeta(may, p, y.uses);
    UsesAreSafe(may, map[Studio := true, Meta(p) := false], y.uses);
    SafeConcat(may, map[], locks, us);
  }

  predicate Wants(w: Worker, l: Lock, shared: bool) {
    w.at < |w.trace| && w.trace[w.at] == Take(l, shared)
  }

  /** The thread has done `pre` and is about to do the next act. */
  function Arrived(op: Op, pre: seq<Act>): Worker { Worker(RightsOf(op), Trace(Body(op)), |pre|, false) }

  lemma ArrivedHolds(op: Op, pre: seq<Act>, next: Act)
    requires pre + [next] <= Trace(Body(op))
    ensures Going(Arrived(op, pre)) && Holding(Arrived(op, pre)) == After(map[], pre)
    ensures Trace(Body(op))[|pre|] == next && forall i :: 0 <= i < |pre| ==> Trace(Body(op))[i] == pre[i]
  {
    PrefixIs(Trace(Body(op)), pre, next);
  }

  lemma PrefixIs(trace: seq<Act>, pre: seq<Act>, next: Act)
    requires pre + [next] <= trace
    ensures |pre| < |trace| && trace[..|pre|] == pre && trace[|pre|] == next
    ensures forall i :: 0 <= i < |pre| ==> trace[i] == pre[i]
  {
  }

  /** None of these acts asks for a lock that a thread holds, unless both share it. */
  ghost predicate Unhindered(s: System, acts: seq<Act>) {
    forall i, u ::
      0 <= i < |acts| && acts[i].Take? && 0 <= u < |s| && Going(s[u]) && acts[i].lock in Holding(s[u]) ==>
        acts[i].shared && Holding(s[u])[acts[i].lock]
  }

  function Newborn(op: Op): Worker { Worker(RightsOf(op), Trace(Body(op)), 0, false) }

  lemma NewbornIsThere(ops: iset<Op>, s: System, op: Op)
    requires Reach(ops, s) && op in ops
    ensures Reach(ops, s + [Newborn(op)])
  {
    ReachNext(ops, s, Begin(RightsOf(op), Trace(Body(op))));
  }

  lemma NewbornIsFree(s: System, w: Worker, pre: seq<Act>)
    requires Unhindered(s, pre) && |pre| <= |w.trace| && w.trace[..|pre|] == pre
    ensures forall i :: 0 <= i < |pre| ==> InNobodysWay(s + [w], |s|, w.trace[i])
  {
    forall i | 0 <= i < |pre| ensures InNobodysWay(s + [w], |s|, w.trace[i]) { assert w.trace[i] == pre[i]; }
  }

  lemma MovedLast(s: System, w: Worker, k: nat)
    ensures Moved(s + [w], |s|, k) == s + [w.(at := w.at + k)]
  {
  }

  /** A new thread comes as far as that if nobody is in its way. */
  lemma Arrives(ops: iset<Op>, s: System, op: Op, pre: seq<Act>, next: Act)
    requires AllValid(ops) && Reach(ops, s) && op in ops && pre + [next] <= Trace(Body(op)) && Unhindered(s, pre)
    ensures Reach(ops, s + [Arrived(op, pre)])
  {
    NewbornIsThere(ops, s, op);
    PrefixIs(Trace(Body(op)), pre, next);
    RunsTo(ops, s, Newborn(op), pre);
  }

  lemma RunsTo(ops: iset<Op>, s: System, w: Worker, pre: seq<Act>)
    requires AllValid(ops) && Reach(ops, s + [w]) && w.at == 0 && !w.asked && Unhindered(s, pre)
    requires |pre| <= |w.trace| && w.trace[..|pre|] == pre
    ensures Reach(ops, s + [w.(at := |pre|)])
  {
    NewbornIsFree(s, w, pre);
    RunsOn(ops, s + [w], |s|, |pre|);
    MovedLast(s, w, |pre|);
  }

  /** Clearing has read Studio.mu and asks for the cost cache. */
  lemma ClearIsThere(ops: iset<Op>, p: string, y: Op) returns (b: Worker)
    requires AllValid(ops) && y in ops && Clears(y, p)
    ensures Reach(ops, [b]) && b.may == RightsOf(y) && Going(b) && Wants(b, Cost(p), false)
    ensures Holding(b) == map[Studio := true, Meta(p) := false]
  {
    var pre := ClearBegins(y, p);
    assert Program(ops, []) && Possible([], []) && Outcome([], []) == [];
    ArrivedHolds(y, pre, Take(Cost(p), false));
    Arrives(ops, [], y, pre, Take(Cost(p), false));
    b := Arrived(y, pre);
    assert [] + [b] == [b];
  }

  /** And a start, or a turn, has begun to fill it. */
  lemma FillIsThere(ops: iset<Op>, p: string, y: Op, x: Op) returns (b: Worker, a: Worker)
    requires AllValid(ops) && y in ops && Clears(y, p) && x in ops && Fills(x, p)
    ensures Reach(ops, [b, a]) && Going(b) && Going(a)
    ensures b.may == RightsOf(y) && Wants(b, Cost(p), false) && Holding(b) == map[Studio := true, Meta(p) := false]
    ensures a.may == RightsOf(x) && Wants(a, Studio, true) && Holding(a) == map[Cost(p) := false]
  {
    b := ClearIsThere(ops, p, y);
    a := FillArrives(ops, b, p, x);
  }

  lemma FillArrives(ops: iset<Op>, b: Worker, p: string, x: Op) returns (a: Worker)
    requires AllValid(ops) && Reach(ops, [b]) && x in ops && Fills(x, p) && Going(b)
    requires Holding(b) == map[Studio := true, Meta(p) := false]
    ensures Reach(ops, [b, a]) && Going(a) && a.may == RightsOf(x) && Wants(a, Studio, true)
    ensures Holding(a) == map[Cost(p) := false]
  {
    var pre := FillBegins(x, p);
    ArrivedHolds(x, pre, Take(Studio, true));
    Arrives(ops, [b], x, pre, Take(Studio, true));
    a := Arrived(x, pre);
    assert [b] + [a] == [b, a];
  }

  lemma WriterArrives(ops: iset<Op>, b: Worker, a: Worker, z: Op) returns (w: Worker)
    requires AllValid(ops) && Reach(ops, [b, a]) && z in ops && z.Archive?
    ensures Reach(ops, [b, a, w]) && w.may == RightsOf(z) && Wants(w, Studio, false) && !w.asked && Going(w)
    ensures Holding(w) == map[]
  {
    w := Arrived(z, []);
    assert Trace(Body(z))[0] == Take(Studio, false) && [] + [Take(Studio, false)] <= Trace(Body(z));
    ArrivedHolds(z, [], Take(Studio, false));
    Arrives(ops, [b, a], z, [], Take(Studio, false));
    assert [b, a] + [w] == [b, a, w];
  }

  lemma WriterIsThere(ops: iset<Op>, p: string, y: Op, x: Op, z: Op) returns (s: System)
    requires AllValid(ops) && y in ops && Clears(y, p) && x in ops && Fills(x, p) && z in ops && z.Archive?
    ensures Reach(ops, s) && Squeeze(s, p, 0, 1, 2)
  {
    var b, a := FillIsThere(ops, p, y, x);
    var w := WriterArrives(ops, b, a, z);
    ReachNext(ops, [b, a, w], Ask(2));
    s := [b, a, w.(asked := true)];
    RightsMean(x, p);
    RightsMean(y, p);
  }

  /** Given which operations may overlap, each as often as it likes: they can come to
      wait for each other in a circle exactly if one of them fills the cost cache of a
      project whose chat another one clears, while a third waits to write Studio.mu. */
  lemma StudioHangsExactly(ops: iset<Op>)
    requires AllValid(ops)
    ensures (exists s :: Reach(ops, s) && Circular(s)) <==> MaySqueeze(ops)
  {
    if exists s :: Reach(ops, s) && Circular(s) {
      var s :| Reach(ops, s) && Circular(s);
      CircularMaySqueeze(ops, s);
    }
    if MaySqueeze(ops) {
      var p, x, y, z :| x in ops && Fills(x, p) && y in ops && Clears(y, p) && z in ops && z.Archive?;
      var s := WriterIsThere(ops, p, y, x, z);
      ReachIsSound(ops, s);
      assert Squeezed(s);
    }
  }

  /** The shortest way there: a start to a project whose budget has not been summed up
      yet, a chat of that project being cleared, and any project being archived. */
  lemma ClearingMayHang(p: string, q: string) returns (s: System)
    requires p != q
    ensures var filling := Start(q, p, "", true, Budget(true, true, []), false, [], false, false, [], []);
            Reach(iset{filling, Clear(p, [], true, []), Archive(q, [], [], [], [])}, s) && Cycle(s, [0, 1, 2])
  {
    var x := Start(q, p, "", true, Budget(true, true, []), false, [], false, false, [], []);
    var y, z := Clear(p, [], true, []), Archive(q, [], [], [], []);
    s := WriterIsThere(iset{x, y, z}, p, y, x, z);
    ReachIsSound(iset{x, y, z}, s);
    SqueezeIsCycle(s, p, 0, 1, 2);
  }
}
