/** Questions to the user (internal/studio/ask_user.go): one open question per chat,
    guarded by a token that is handed on, given up, or lost with its gate. Each method
    of the registry is one section under its lock, or one operation on a channel;
    agents, answers and dismissals may interleave in any way. */
module AskUser {
  import opened Wrappers

  datatype Route = Route(project: string, session: string)

  datatype Gate = Gate(route: Route, tokens: nat, refs: int)

  // A channel with room for one answer.
  datatype Chan = Chan(buffer: seq<string>, sent: nat, closed: bool)

  datatype Pc =
    | Queued       // counted in refs, waiting for the token
    | Holding      // has the token
    | Registered   // owns a question ID
    | Open         // the question is on the screen
    | Woken        // got an answer, a dismissal or a cancellation
    | Cleaned      // gave up the question ID
    | Leaving      // the question is off the screen
    | InFlight     // no longer counted, about to put the token back
    | Gone

  datatype Waiter = Waiter(route: Route, gate: nat, pc: Pc, id: string, chan: Option<nat>, answer: Option<string>)

  datatype Resolver = Resolver(id: string, chan: nat, answer: Option<string>, at: ResolverPc)

  datatype ResolverPc = Sending | Closing | Finished

  datatype Event = Asked(route: Route, id: string) | Closed(route: Route, id: string)

  datatype State = State(
    pending: map<string, nat>, routes: map<Route, nat>, gates: seq<Gate>, chans: seq<Chan>,
    waiters: seq<Waiter>, resolvers: seq<Resolver>, events: seq<Event>)

  // -------------------------------------------------------------------- gates

  predicate Counts(w: Waiter, g: nat) { w.gate == g && !w.pc.InFlight? && !w.pc.Gone? }

  /** The waiter has the gate's token, or is about to put it back. */
  predicate HasToken(w: Waiter, g: nat) { w.gate == g && !w.pc.Queued? && !w.pc.Gone? }

  function Users(ws: seq<Waiter>, g: nat): set<nat> { set t | 0 <= t < |ws| && Counts(ws[t], g) }

  /** There is exactly one token: in the channel, with one waiter, or on its way back;
      a gate that nobody counts on any more may have lost it. */
  ghost predicate GateOk(gate: Gate, ws: seq<Waiter>, g: nat) {
    gate.refs == |Users(ws, g)| && gate.tokens <= 1 &&
    (forall t, u :: 0 <= t < |ws| && 0 <= u < |ws| && HasToken(ws[t], g) && HasToken(ws[u], g) ==> t == u) &&
    (gate.tokens == 1 ==> forall t :: 0 <= t < |ws| ==> !HasToken(ws[t], g)) &&
    (gate.refs > 0 && gate.tokens == 0 ==> exists t :: 0 <= t < |ws| && HasToken(ws[t], g))
  }

  /** The gate that a route leads to is the only one in use there. */
  ghost predicate RoutesOk(routes: map<Route, nat>, gates: seq<Gate>) {
    (forall r :: r in routes ==> routes[r] < |gates| && gates[routes[r]].route == r && gates[routes[r]].refs > 0) &&
    (forall g :: 0 <= g < |gates| && gates[g].refs > 0 ==> gates[g].route in routes && routes[gates[g].route] == g)
  }

  ghost predicate RoutedOk(ws: seq<Waiter>, gates: seq<Gate>) {
    forall t :: 0 <= t < |ws| ==> ws[t].gate < |gates| && gates[ws[t].gate].route == ws[t].route
  }

  ghost predicate GatesOk(s: State) {
    RoutesOk(s.routes, s.gates) && RoutedOk(s.waiters, s.gates) &&
    forall g :: 0 <= g < |s.gates| ==> GateOk(s.gates[g], s.waiters, g)
  }

  lemma UsersAfter(ws: seq<Waiter>, t: nat, w: Waiter, g: nat)
    requires t < |ws|
    ensures |Users(ws[t := w], g)| == |Users(ws, g)| + (if Counts(w, g) then 1 else 0) - (if Counts(ws[t], g) then 1 else 0)
  {
    var others := Users(ws, g) - {t};
    UsersAreOthers(ws, t, g);
    UsersAreOthers(ws[t := w], t, g);
    assert Users(ws[t := w], g) - {t} == others by {
      forall u ensures u in Users(ws[t := w], g) - {t} <==> u in others { }
    }
  }

  lemma UsersAreOthers(ws: seq<Waiter>, t: nat, g: nat)
    requires t < |ws|
    ensures |Users(ws, g)| == |Users(ws, g) - {t}| + (if Counts(ws[t], g) then 1 else 0)
  {
  }

  lemma UsersWith(ws: seq<Waiter>, w: Waiter, g: nat)
    ensures |Users(ws + [w], g)| == |Users(ws, g)| + (if Counts(w, g) then 1 else 0)
  {
    if Counts(w, g) {
      assert Users(ws + [w], g) == Users(ws, g) + {|ws|};
    } else {
      assert Users(ws + [w], g) == Users(ws, g);
    }
  }

  lemma UserIsCounted(ws: seq<Waiter>, t: nat, g: nat)
    requires t < |ws| && Counts(ws[t], g)
    ensures |Users(ws, g)| > 0
  {
    assert t in Users(ws, g);
  }

  /** A waiter that moves without taking or giving up anything changes no gate. */
  lemma SteadyGates(s: State, t: nat, w: Waiter)
    requires GatesOk(s) && t < |s.waiters| && w.gate == s.waiters[t].gate && w.route == s.waiters[t].route
    requires HasToken(w, w.gate) && HasToken(s.waiters[t], w.gate) && Counts(w, w.gate) && Counts(s.waiters[t], w.gate)
    ensures GatesOk(s.(waiters := s.waiters[t := w]))
  {
    var ws' := s.waiters[t := w];
    forall g | 0 <= g < |s.gates| ensures GateOk(s.gates[g], ws', g) {
      UsersAfter(s.waiters, t, w, g);
      assert GateOk(s.gates[g], s.waiters, g);
      if exists u :: 0 <= u < |s.waiters| && HasToken(s.waiters[u], g) {
        var u :| 0 <= u < |s.waiters| && HasToken(s.waiters[u], g);
        assert HasToken(ws'[u], g);
      }
    }
  }

  /** A change at one gate leaves the others as they are. */
  lemma OtherGate(gate: Gate, ws: seq<Waiter>, t: nat, w: Waiter, g: nat)
    requires t < |ws| && GateOk(gate, ws, g) && ws[t].gate != g && w.gate != g
    ensures GateOk(gate, ws[t := w], g)
  {
    UsersAfter(ws, t, w, g);
    if exists u :: 0 <= u < |ws| && HasToken(ws[u], g) {
      var u :| 0 <= u < |ws| && HasToken(ws[u], g);
      assert HasToken(ws[t := w][u], g);
    }
  }

  lemma OtherGateGrows(gate: Gate, ws: seq<Waiter>, w: Waiter, g: nat)
    requires GateOk(gate, ws, g) && w.gate != g
    ensures GateOk(gate, ws + [w], g)
  {
    UsersWith(ws, w, g);
    if exists u :: 0 <= u < |ws| && HasToken(ws[u], g) {
      var u :| 0 <= u < |ws| && HasToken(ws[u], g);
      assert HasToken((ws + [w])[u], g);
    }
  }

  /** Joining: a new gate with its token if the route has none, and one more user. */
  function Joined(s: State, route: Route): State {
    if route in s.routes && s.routes[route] < |s.gates| then
      var g := s.routes[route];
      s.(gates := s.gates[g := s.gates[g].(refs := s.gates[g].refs + 1)],
         waiters := s.waiters + [Waiter(route, g, Queued, "", None, None)])
    else
      s.(gates := s.gates + [Gate(route, 1, 1)], routes := s.routes[route := |s.gates|],
         waiters := s.waiters + [Waiter(route, |s.gates|, Queued, "", None, None)])
  }

  lemma JoinedGate(gate: Gate, ws: seq<Waiter>, w: Waiter, g: nat)
    requires GateOk(gate, ws, g) && w.gate == g && w.pc.Queued? && gate.refs > 0
    ensures GateOk(gate.(refs := gate.refs + 1), ws + [w], g)
  {
    UsersWith(ws, w, g);
    if exists u :: 0 <= u < |ws| && HasToken(ws[u], g) {
      var u :| 0 <= u < |ws| && HasToken(ws[u], g);
      assert HasToken((ws + [w])[u], g);
    }
  }

  lemma NewGate(ws: seq<Waiter>, w: Waiter, g: nat)
    requires (forall t :: 0 <= t < |ws| ==> ws[t].gate != g) && w.gate == g && w.pc.Queued?
    ensures GateOk(Gate(w.route, 1, 1), ws + [w], g)
  {
    UsersWith(ws, w, g);
    assert Users(ws, g) == {};
  }

  lemma JoinKeepsGates(s: State, route: Route)
    requires GatesOk(s)
    ensures GatesOk(Joined(s, route))
  {
    var s' := Joined(s, route);
    var w := s'.waiters[|s.waiters|];
    JoinKeepsRoutes(s, route);
    JoinIsRouted(s, route);
    forall g | 0 <= g < |s'.gates| ensures GateOk(s'.gates[g], s'.waiters, g) {
      if g != w.gate { OtherGateGrows(s.gates[g], s.waiters, w, g); }
      else if g < |s.gates| { JoinedGate(s.gates[g], s.waiters, w, g); }
      else { NewGate(s.waiters, w, g); }
    }
  }

  lemma JoinIsRouted(s: State, route: Route)
    requires RoutedOk(s.waiters, s.gates) && RoutesOk(s.routes, s.gates)
    ensures RoutedOk(Joined(s, route).waiters, Joined(s, route).gates)
  {
  }

  lemma JoinKeepsRoutes(s: State, route: Route)
    requires RoutesOk(s.routes, s.gates)
    ensures RoutesOk(Joined(s, route).routes, Joined(s, route).gates)
  {
    if route in s.routes && s.routes[route] < |s.gates| {
      var g := s.routes[route];
      assert Joined(s, route).gates == s.gates[g := s.gates[g].(refs := s.gates[g].refs + 1)];
    }
  }

  function Grabbed(s: State, t: nat): State
    requires t < |s.waiters| && s.waiters[t].gate < |s.gates|
  {
    var g := s.waiters[t].gate;
    s.(gates := s.gates[g := s.gates[g].(tokens := 0)], waiters := s.waiters[t := s.waiters[t].(pc := Holding)])
  }

  lemma GrabKeepsGates(s: State, t: nat)
    requires GatesOk(s) && t < |s.waiters| && s.waiters[t].pc.Queued? && s.gates[s.waiters[t].gate].tokens == 1
    ensures GatesOk(Grabbed(s, t))
  {
    var s', gate := Grabbed(s, t), s.waiters[t].gate;
    forall g | 0 <= g < |s.gates| ensures GateOk(s'.gates[g], s'.waiters, g) {
      UsersAfter(s.waiters, t, s'.waiters[t], g);
      assert GateOk(s.gates[g], s.waiters, g);
      if g != gate { OtherGate(s.gates[g], s.waiters, t, s'.waiters[t], g);
      } else { assert HasToken(s'.waiters[t], g); }
    }
  }

  /** One user less; the last one takes the gate off its route. */
  function Uncounted(s: State, t: nat, pc: Pc): State
    requires t < |s.waiters| && s.waiters[t].gate < |s.gates|
  {
    var g := s.waiters[t].gate;
    var refs := s.gates[g].refs - 1;
    s.(gates := s.gates[g := s.gates[g].(refs := refs)],
       routes := if refs == 0 && s.waiters[t].route in s.routes && s.routes[s.waiters[t].route] == g
                 then s.routes - {s.waiters[t].route} else s.routes,
       waiters := s.waiters[t := s.waiters[t].(pc := if refs == 0 then Gone else pc)])
  }

  lemma UncountedGate(gate: Gate, ws: seq<Waiter>, t: nat, pc: Pc, g: nat)
    requires t < |ws| && ws[t].gate == g && GateOk(gate, ws, g)
    requires (ws[t].pc.Leaving? && pc == InFlight) || (ws[t].pc.Queued? && pc == Gone)
    ensures var refs := gate.refs - 1;
            GateOk(gate.(refs := refs), ws[t := ws[t].(pc := if refs == 0 then Gone else pc)], g)
  {
    var refs := gate.refs - 1;
    var w := ws[t].(pc := if refs == 0 then Gone else pc);
    UsersAfter(ws, t, w, g);
    if refs > 0 && exists u :: 0 <= u < |ws| && HasToken(ws[u], g) {
      var u :| 0 <= u < |ws| && HasToken(ws[u], g);
      assert HasToken(ws[t := w][u], g);
    }
  }

  lemma UncountKeepsRoutes(s: State, t: nat, pc: Pc)
    requires t < |s.waiters| && s.waiters[t].gate < |s.gates| && RoutesOk(s.routes, s.gates)
    requires s.gates[s.waiters[t].gate].route == s.waiters[t].route && s.gates[s.waiters[t].gate].refs > 0
    ensures RoutesOk(Uncounted(s, t, pc).routes, Uncounted(s, t, pc).gates)
  {
  }

  /** releaseRoute before the token is put back, and abandonRoute. */
  lemma UncountKeepsGates(s: State, t: nat, pc: Pc)
    requires GatesOk(s) && t < |s.waiters|
    requires (s.waiters[t].pc.Leaving? && pc == InFlight) || (s.waiters[t].pc.Queued? && pc == Gone)
    ensures GatesOk(Uncounted(s, t, pc))
  {
    var s', gate := Uncounted(s, t, pc), s.waiters[t].gate;
    assert GateOk(s.gates[gate], s.waiters, gate);
    UserIsCounted(s.waiters, t, gate);
    UncountKeepsRoutes(s, t, pc);
    forall g | 0 <= g < |s.gates| ensures GateOk(s'.gates[g], s'.waiters, g) {
      assert GateOk(s.gates[g], s.waiters, g);
      if g != gate { OtherGate(s.gates[g], s.waiters, t, s'.waiters[t], g); }
      else { UncountedGate(s.gates[g], s.waiters, t, pc, g); }
    }
  }

  function Returned(s: State, t: nat): State
    requires t < |s.waiters| && s.waiters[t].gate < |s.gates|
  {
    var g := s.waiters[t].gate;
    s.(gates := s.gates[g := s.gates[g].(tokens := s.gates[g].tokens + 1)],
       waiters := s.waiters[t := s.waiters[t].(pc := Gone)])
  }

  /** Putting the token back never has to wait, and restores the gate. */
  lemma ReturnKeepsGates(s: State, t: nat)
    requires GatesOk(s) && t < |s.waiters| && s.waiters[t].pc.InFlight?
    ensures s.gates[s.waiters[t].gate].tokens == 0
    ensures GatesOk(Returned(s, t))
  {
    var s', gate := Returned(s, t), s.waiters[t].gate;
    assert GateOk(s.gates[gate], s.waiters, gate) && HasToken(s.waiters[t], gate);
    forall g | 0 <= g < |s.gates| ensures GateOk(s'.gates[g], s'.waiters, g) {
      UsersAfter(s.waiters, t, s'.waiters[t], g);
      assert GateOk(s.gates[g], s.waiters, g);
      if g != gate { OtherGate(s.gates[g], s.waiters, t, s'.waiters[t], g); }
    }
  }

  predicate OnScreen(w: Waiter) { w.pc.Open? || w.pc.Woken? || w.pc.Cleaned? }

  /** At most one waiter of a route holds its token; so at most one question of a
      chat is open. */
  lemma OneHolderPerRoute(s: State, t: nat, u: nat)
    requires GatesOk(s) && t < |s.waiters| && u < |s.waiters| && s.waiters[t].route == s.waiters[u].route
    requires forall k :: k in {t, u} ==> !(s.waiters[k].pc in {Queued, InFlight, Gone})
    ensures t == u
  {
    UserIsCounted(s.waiters, t, s.waiters[t].gate);
    UserIsCounted(s.waiters, u, s.waiters[u].gate);
    assert GateOk(s.gates[s.waiters[t].gate], s.waiters, s.waiters[t].gate);
    assert GateOk(s.gates[s.waiters[u].gate], s.waiters, s.waiters[u].gate);
    assert HasToken(s.waiters[t], s.waiters[t].gate) && HasToken(s.waiters[u], s.waiters[u].gate);
  }

  // ----------------------------------------------------------------- channels

  const FRESH := Chan([], 0, false)

  predicate Owns(w: Waiter, id: string, c: nat) {
    w.chan == Some(c) && w.id == id && (w.pc.Registered? || w.pc.Open? || w.pc.Woken?)
  }

  /** A question ID leads to an unused channel of the waiter that registered it. */
  ghost predicate PendingOk(pending: map<string, nat>, chans: seq<Chan>, ws: seq<Waiter>) {
    forall id :: id in pending ==>
      pending[id] < |chans| && chans[pending[id]] == FRESH &&
      exists t :: 0 <= t < |ws| && Owns(ws[t], id, pending[id])
  }

  ghost predicate WaitersOk(chans: seq<Chan>, ws: seq<Waiter>) {
    (forall t :: 0 <= t < |ws| ==>
       (ws[t].chan.Some? ==> ws[t].chan.value < |chans|) &&
       (ws[t].pc.Queued? || ws[t].pc.Holding? ==> ws[t].chan.None?) && (ws[t].chan.None? ==> ws[t].answer.None?)) &&
    (forall t, u :: 0 <= t < u < |ws| && ws[t].chan.Some? ==> ws[t].chan != ws[u].chan)
  }

  ghost predicate ResolverOk(r: Resolver, pending: map<string, nat>, chans: seq<Chan>) {
    r.chan < |chans| && (forall id :: id in pending ==> pending[id] != r.chan) &&
    (r.at.Sending? ==> r.answer.Some? && chans[r.chan] == FRESH) &&
    (r.at.Closing? ==> !chans[r.chan].closed)
  }

  /** One resolver at most ever gets hold of a channel. */
  ghost predicate ResolversOk(pending: map<string, nat>, chans: seq<Chan>, rs: seq<Resolver>) {
    (forall k :: 0 <= k < |rs| ==> ResolverOk(rs[k], pending, chans)) &&
    (forall j, k :: 0 <= j < k < |rs| ==> rs[j].chan != rs[k].chan)
  }

  predicate Gave(r: Resolver, c: nat, answer: string) { r.chan == c && r.answer == Some(answer) && !r.at.Sending? }

  /** An answer in a channel, or with a waiter, was given by the channel's one
      resolver. */
  ghost predicate AnswersOk(chans: seq<Chan>, ws: seq<Waiter>, rs: seq<Resolver>) {
    (forall c :: 0 <= c < |chans| ==>
       |chans[c].buffer| <= chans[c].sent <= 1 &&
       (chans[c].buffer != [] ==> exists k :: 0 <= k < |rs| && Gave(rs[k], c, chans[c].buffer[0]))) &&
    (forall t :: 0 <= t < |ws| && ws[t].chan.Some? && ws[t].answer.Some? ==>
       exists k :: 0 <= k < |rs| && Gave(rs[k], ws[t].chan.value, ws[t].answer.value))
  }

  ghost predicate AskedFor(r: Resolver, ws: seq<Waiter>) {
    exists t :: 0 <= t < |ws| && ws[t].chan == Some(r.chan) && ws[t].id == r.id
  }

  ghost predicate ChansOk(s: State) {
    PendingOk(s.pending, s.chans, s.waiters) && WaitersOk(s.chans, s.waiters) &&
    ResolversOk(s.pending, s.chans, s.resolvers) && AnswersOk(s.chans, s.waiters, s.resolvers) &&
    forall k :: 0 <= k < |s.resolvers| ==> AskedFor(s.resolvers[k], s.waiters)
  }

  /** A waiter that keeps its ID and channel keeps everything that hangs on them. */
  lemma SteadyChans(s: State, t: nat, w: Waiter)
    requires ChansOk(s) && t < |s.waiters|
    requires w == s.waiters[t].(pc := w.pc)
    requires w.pc.Queued? || w.pc.Holding? ==> s.waiters[t].pc.Queued? || s.waiters[t].pc.Holding?
    requires Owns(s.waiters[t], w.id, if w.chan.Some? then w.chan.value else 0) ==>
               w.pc.Registered? || w.pc.Open? || w.pc.Woken?
    ensures ChansOk(s.(waiters := s.waiters[t := w]))
  {
    var ws, ws' := s.waiters, s.waiters[t := w];
    forall id | id in s.pending ensures exists u :: 0 <= u < |ws'| && Owns(ws'[u], id, s.pending[id]) {
      var u :| 0 <= u < |ws| && Owns(ws[u], id, s.pending[id]);
      assert Owns(ws'[u], id, s.pending[id]);
    }
    forall k | 0 <= k < |s.resolvers| ensures AskedFor(s.resolvers[k], ws') { StillAsked(s.resolvers[k], ws, t, w); }
  }

  lemma StillAsked(r: Resolver, ws: seq<Waiter>, t: nat, w: Waiter)
    requires AskedFor(r, ws) && t < |ws| && (ws[t].chan.Some? ==> w.chan == ws[t].chan && w.id == ws[t].id)
    ensures AskedFor(r, ws[t := w])
  {
    var u :| 0 <= u < |ws| && ws[u].chan == Some(r.chan) && ws[u].id == r.id;
    assert ws[t := w][u].chan == Some(r.chan) && ws[t := w][u].id == r.id;
  }

  lemma AskedAmongMore(r: Resolver, ws: seq<Waiter>, w: Waiter)
    requires AskedFor(r, ws)
    ensures AskedFor(r, ws + [w])
  {
    var u :| 0 <= u < |ws| && ws[u].chan == Some(r.chan) && ws[u].id == r.id;
    assert (ws + [w])[u] == ws[u];
  }

  /** Joining adds a waiter without a channel. */
  lemma JoinKeepsChans(s: State, w: Waiter)
    requires ChansOk(s) && w.chan.None? && w.answer.None?
    ensures ChansOk(s.(waiters := s.waiters + [w]))
  {
    var ws' := s.waiters + [w];
    forall id | id in s.pending ensures exists u :: 0 <= u < |ws'| && Owns(ws'[u], id, s.pending[id]) {
      var u :| 0 <= u < |s.waiters| && Owns(s.waiters[u], id, s.pending[id]);
      assert Owns(ws'[u], id, s.pending[id]);
    }
    forall k | 0 <= k < |s.resolvers| ensures AskedFor(s.resolvers[k], ws') {
      AskedAmongMore(s.resolvers[k], s.waiters, w);
    }
  }

  /** register: a new channel for an ID that nobody has. */
  function RegisteredAs(s: State, t: nat, id: string): State
    requires t < |s.waiters|
  {
    s.(pending := s.pending[id := |s.chans|], chans := s.chans + [FRESH],
       waiters := s.waiters[t := s.waiters[t].(pc := Registered, id := id, chan := Some(|s.chans|))])
  }

  lemma RegisterKeepsAnswers(s: State, t: nat, id: string)
    requires ChansOk(s) && t < |s.waiters| && s.waiters[t].pc.Holding? && id !in s.pending
    ensures var s' := RegisteredAs(s, t, id);
            AnswersOk(s'.chans, s'.waiters, s'.resolvers) && WaitersOk(s'.chans, s'.waiters)
  {
  }

  lemma RegisterKeepsChans(s: State, t: nat, id: string)
    requires ChansOk(s) && t < |s.waiters| && s.waiters[t].pc.Holding? && id !in s.pending
    ensures ChansOk(RegisteredAs(s, t, id))
  {
    var s' := RegisteredAs(s, t, id);
    RegisterKeepsAnswers(s, t, id);
    assert Owns(s'.waiters[t], id, |s.chans|);
    forall x | x in s.pending ensures exists u :: 0 <= u < |s'.waiters| && Owns(s'.waiters[u], x, s.pending[x]) {
      var u :| 0 <= u < |s.waiters| && Owns(s.waiters[u], x, s.pending[x]);
      assert Owns(s'.waiters[u], x, s.pending[x]);
    }
    forall k | 0 <= k < |s.resolvers| ensures AskedFor(s.resolvers[k], s'.waiters) {
      StillAsked(s.resolvers[k], s.waiters, t, s'.waiters[t]);
    }
  }

  /** The select of waitForUserAnswer: an answer, or a dismissal or cancellation. */
  function Awoken(s: State, t: nat, answered: bool): State
    requires t < |s.waiters| && s.waiters[t].chan.Some? && s.waiters[t].chan.value < |s.chans|
    requires answered ==> s.chans[s.waiters[t].chan.value].buffer != []
  {
    var c := s.waiters[t].chan.value;
    if answered then
      s.(chans := s.chans[c := s.chans[c].(buffer := [])],
         waiters := s.waiters[t := s.waiters[t].(pc := Woken, answer := Some(s.chans[c].buffer[0]))])
    else s.(waiters := s.waiters[t := s.waiters[t].(pc := Woken)])
  }

  lemma AnsweredKeepsChans(s: State, t: nat)
    requires ChansOk(s) && t < |s.waiters| && s.waiters[t].pc.Open? && s.waiters[t].chan.Some?
    requires s.chans[s.waiters[t].chan.value].buffer != []
    ensures ChansOk(Awoken(s, t, true))
  {
    var s', c := Awoken(s, t, true), s.waiters[t].chan.value;
    forall id | id in s.pending ensures s.pending[id] != c { }
    forall id | id in s.pending ensures exists u :: 0 <= u < |s'.waiters| && Owns(s'.waiters[u], id, s.pending[id]) {
      var u :| 0 <= u < |s.waiters| && Owns(s.waiters[u], id, s.pending[id]);
      assert Owns(s'.waiters[u], id, s.pending[id]);
    }
    forall k | 0 <= k < |s.resolvers| ensures AskedFor(s.resolvers[k], s'.waiters) {
      StillAsked(s.resolvers[k], s.waiters, t, s'.waiters[t]);
    }
  }

  /** cleanup: only the exact owner's entry goes. */
  function CleanedUp(s: State, t: nat): State
    requires t < |s.waiters|
  {
    var w := s.waiters[t];
    s.(pending := if w.id in s.pending && Some(s.pending[w.id]) == w.chan then s.pending - {w.id} else s.pending,
       waiters := s.waiters[t := w.(pc := Cleaned)])
  }

  lemma CleanKeepsChans(s: State, t: nat)
    requires ChansOk(s) && t < |s.waiters| && s.waiters[t].pc.Woken?
    ensures ChansOk(CleanedUp(s, t))
  {
    var s' := CleanedUp(s, t);
    forall id | id in s'.pending ensures exists u :: 0 <= u < |s'.waiters| && Owns(s'.waiters[u], id, s'.pending[id]) {
      var u :| 0 <= u < |s.waiters| && Owns(s.waiters[u], id, s.pending[id]);
      assert u != t;
      assert Owns(s'.waiters[u], id, s.pending[id]);
    }
    forall k | 0 <= k < |s.resolvers| ensures AskedFor(s.resolvers[k], s'.waiters) {
      StillAsked(s.resolvers[k], s.waiters, t, s'.waiters[t]);
    }
  }

  /** A cleanup never takes an entry that another waiter registered, even under the
      same ID. */
  lemma CleanupSparesOthers(s: State, t: nat, u: nat, id: string)
    requires ChansOk(s) && t < |s.waiters| && u < |s.waiters| && u != t && s.waiters[t].chan.Some?
    requires id in s.pending && Owns(s.waiters[u], id, s.pending[id])
    ensures id in CleanedUp(s, t).pending && CleanedUp(s, t).pending[id] == s.pending[id]
  {
  }

  /** resolve and cancel, up to the end of the locked section. */
  function TakenBy(s: State, id: string, answer: Option<string>): State
    requires id in s.pending
  {
    s.(pending := s.pending - {id},
       resolvers := s.resolvers + [Resolver(id, s.pending[id], answer, if answer.Some? then Sending else Closing)])
  }

  lemma TakeKeepsChans(s: State, id: string, answer: Option<string>)
    requires ChansOk(s) && id in s.pending
    ensures ChansOk(TakenBy(s, id, answer))
  {
    var s', c := TakenBy(s, id, answer), s.pending[id];
    var t :| 0 <= t < |s.waiters| && Owns(s.waiters[t], id, c);
    assert AskedFor(s'.resolvers[|s.resolvers|], s.waiters);
    OthersKeepTheirs(s, id);
    TakeKeepsAnswers(s, s');
  }

  lemma OthersKeepTheirs(s: State, id: string)
    requires ChansOk(s) && id in s.pending
    ensures forall x :: x in s.pending && x != id ==> s.pending[x] != s.pending[id]
  {
    var t :| 0 <= t < |s.waiters| && Owns(s.waiters[t], id, s.pending[id]);
    forall x | x in s.pending && x != id ensures s.pending[x] != s.pending[id] {
      var u :| 0 <= u < |s.waiters| && Owns(s.waiters[u], x, s.pending[x]);
    }
  }

  lemma TakeKeepsAnswers(s: State, s': State)
    requires AnswersOk(s.chans, s.waiters, s.resolvers) && s.resolvers <= s'.resolvers
    ensures AnswersOk(s.chans, s.waiters, s'.resolvers)
  {
  }

  function Sent(s: State, k: nat): State
    requires k < |s.resolvers| && s.resolvers[k].chan < |s.chans| && s.resolvers[k].answer.Some?
  {
    var r := s.resolvers[k];
    s.(chans := s.chans[r.chan := Chan([r.answer.value], s.chans[r.chan].sent + 1, s.chans[r.chan].closed)],
       resolvers := s.resolvers[k := r.(at := Closing)])
  }

  function ClosedBy(s: State, k: nat): State
    requires k < |s.resolvers| && s.resolvers[k].chan < |s.chans|
  {
    var r := s.resolvers[k];
    s.(chans := s.chans[r.chan := s.chans[r.chan].(closed := true)], resolvers := s.resolvers[k := r.(at := Finished)])
  }

  lemma ResolverMoves(chans: seq<Chan>, ws: seq<Waiter>, rs: seq<Resolver>, k: nat, r: Resolver)
    requires AnswersOk(chans, ws, rs) && k < |rs| && r == rs[k].(at := r.at) && !r.at.Sending?
    ensures AnswersOk(chans, ws, rs[k := r])
  {
    var rs' := rs[k := r];
    forall c | 0 <= c < |chans| && chans[c].buffer != []
      ensures exists j :: 0 <= j < |rs'| && Gave(rs'[j], c, chans[c].buffer[0])
    {
      var j :| 0 <= j < |rs| && Gave(rs[j], c, chans[c].buffer[0]);
      assert Gave(rs'[j], c, chans[c].buffer[0]);
    }
    forall t | 0 <= t < |ws| && ws[t].chan.Some? && ws[t].answer.Some?
      ensures exists j :: 0 <= j < |rs'| && Gave(rs'[j], ws[t].chan.value, ws[t].answer.value)
    {
      var j :| 0 <= j < |rs| && Gave(rs[j], ws[t].chan.value, ws[t].answer.value);
      assert Gave(rs'[j], ws[t].chan.value, ws[t].answer.value);
    }
  }

  /** The buffered send never has to wait. */
  lemma SendKeepsChans(s: State, k: nat)
    requires ChansOk(s) && k < |s.resolvers| && s.resolvers[k].at.Sending?
    ensures s.chans[s.resolvers[k].chan].buffer == [] && ChansOk(Sent(s, k))
  {
    var s', r := Sent(s, k), s.resolvers[k];
    ResolverMoves(s.chans, s.waiters, s.resolvers, k, r.(at := Closing));
    assert Gave(s'.resolvers[k], r.chan, r.answer.value);
    forall j | 0 <= j < |s'.resolvers| ensures AskedFor(s'.resolvers[j], s'.waiters) {
      assert AskedFor(s.resolvers[j], s.waiters);
    }
  }

  lemma CloseKeepsChans(s: State, k: nat)
    requires ChansOk(s) && k < |s.resolvers| && s.resolvers[k].at.Closing?
    ensures !s.chans[s.resolvers[k].chan].closed && ChansOk(ClosedBy(s, k))
  {
    var s', r := ClosedBy(s, k), s.resolvers[k];
    ResolverMoves(s.chans, s.waiters, s.resolvers, k, r.(at := Finished));
    forall c | 0 <= c < |s.chans| ensures s'.chans[c].buffer == s.chans[c].buffer &&
      s'.chans[c].sent == s.chans[c].sent { }
    forall j | 0 <= j < |s'.resolvers| ensures AskedFor(s'.resolvers[j], s'.waiters) {
      assert AskedFor(s.resolvers[j], s.waiters);
    }
  }

  // ------------------------------------------------------------------- events

  /** The question on the screen of a chat after these events. */
  function OpenOn(events: seq<Event>, r: Route): Option<string> {
    if events == [] then None
    else
      var last := events[|events| - 1];
      if last.route != r then OpenOn(events[..|events| - 1], r)
      else if last.Asked? then Some(last.id) else None
  }

  /** On each chat a question is asked only when none is open, and only the open one
      is closed. */
  ghost predicate Alternating(events: seq<Event>) {
    events == [] ||
    (Alternating(events[..|events| - 1]) &&
     var last, before := events[|events| - 1], events[..|events| - 1];
     OpenOn(before, last.route) == if last.Asked? then None else Some(last.id))
  }

  ghost predicate EventsOk(events: seq<Event>, ws: seq<Waiter>) {
    Alternating(events) &&
    (forall t :: 0 <= t < |ws| && OnScreen(ws[t]) ==> OpenOn(events, ws[t].route) == Some(ws[t].id)) &&
    (forall r :: OpenOn(events, r).Some? ==> exists t :: 0 <= t < |ws| && OnScreen(ws[t]) && ws[t].route == r)
  }

  lemma OpenAfter(events: seq<Event>, e: Event, r: Route)
    ensures OpenOn(events + [e], r) ==
            if e.route != r then OpenOn(events, r) else if e.Asked? then Some(e.id) else None
    ensures Alternating(events + [e]) <==>
            Alternating(events) && OpenOn(events, e.route) == if e.Asked? then None else Some(e.id)
  {
  }

  /** A waiter that neither opens nor closes its question. */
  lemma SteadyEvents(events: seq<Event>, ws: seq<Waiter>, t: nat, w: Waiter)
    requires EventsOk(events, ws) && t < |ws| && OnScreen(w) == OnScreen(ws[t]) && w.route == ws[t].route
    requires OnScreen(w) ==> w.id == ws[t].id
    ensures EventsOk(events, ws[t := w])
  {
    var ws' := ws[t := w];
    forall r | OpenOn(events, r).Some? ensures exists u :: 0 <= u < |ws'| && OnScreen(ws'[u]) && ws'[u].route == r {
      var u :| 0 <= u < |ws| && OnScreen(ws[u]) && ws[u].route == r;
      assert OnScreen(ws'[u]);
    }
  }

  lemma JoinKeepsEvents(events: seq<Event>, ws: seq<Waiter>, w: Waiter)
    requires EventsOk(events, ws) && !OnScreen(w)
    ensures EventsOk(events, ws + [w])
  {
    var ws' := ws + [w];
    forall r | OpenOn(events, r).Some? ensures exists u :: 0 <= u < |ws'| && OnScreen(ws'[u]) && ws'[u].route == r {
      var u :| 0 <= u < |ws| && OnScreen(ws[u]) && ws[u].route == r;
      assert OnScreen(ws'[u]);
    }
  }

  /** Nobody else of the chat has a question on the screen. */
  ghost predicate AloneOnScreen(ws: seq<Waiter>, t: nat)
    requires t < |ws|
  {
    forall u :: 0 <= u < |ws| && u != t && OnScreen(ws[u]) ==> ws[u].route != ws[t].route
  }

  lemma HolderIsAlone(s: State, t: nat)
    requires GatesOk(s) && t < |s.waiters| && !(s.waiters[t].pc in {Queued, InFlight, Gone})
    ensures AloneOnScreen(s.waiters, t)
  {
    forall u | 0 <= u < |s.waiters| && u != t &&
      OnScreen(s.waiters[u]) ensures s.waiters[u].route != s.waiters[t].route {
      if s.waiters[u].route == s.waiters[t].route { OneHolderPerRoute(s, t, u); }
    }
  }

  lemma AskKeepsEvents(events: seq<Event>, ws: seq<Waiter>, t: nat)
    requires EventsOk(events, ws) && t < |ws| && ws[t].pc.Registered? && AloneOnScreen(ws, t)
    ensures EventsOk(events + [Asked(ws[t].route, ws[t].id)], ws[t := ws[t].(pc := Open)])
  {
    var e, ws' := Asked(ws[t].route, ws[t].id), ws[t := ws[t].(pc := Open)];
    assert OpenOn(events, ws[t].route).None?;
    forall r ensures OpenOn(events + [e], r) == if ws[t].route != r then OpenOn(events, r) else Some(e.id) {
      OpenAfter(events, e, r);
    }
    OpenAfter(events, e, ws[t].route);
    forall r | OpenOn(events + [e], r).Some? ensures exists u :: 0 <= u < |ws'| && OnScreen(ws'[u]) && ws'[u].route == r {
      if r == ws[t].route {
        assert OnScreen(ws'[t]);
      } else {
        var u :| 0 <= u < |ws| && OnScreen(ws[u]) && ws[u].route == r;
        assert OnScreen(ws'[u]);
      }
    }
  }

  lemma CloseKeepsEvents(events: seq<Event>, ws: seq<Waiter>, t: nat)
    requires EventsOk(events, ws) && t < |ws| && ws[t].pc.Cleaned? && AloneOnScreen(ws, t)
    ensures EventsOk(events + [Closed(ws[t].route, ws[t].id)], ws[t := ws[t].(pc := Leaving)])
  {
    var e, ws' := Closed(ws[t].route, ws[t].id), ws[t := ws[t].(pc := Leaving)];
    forall r ensures OpenOn(events + [e], r) == if ws[t].route != r then OpenOn(events, r) else None {
      OpenAfter(events, e, r);
    }
    OpenAfter(events, e, ws[t].route);
    forall r | OpenOn(events + [e], r).Some? ensures exists u :: 0 <= u < |ws'| && OnScreen(ws'[u]) && ws'[u].route == r {
      var u :| 0 <= u < |ws| && OnScreen(ws[u]) && ws[u].route == r;
      assert OnScreen(ws'[u]);
    }
  }

  // -------------------------------------------------------- any interleaving

  datatype Step =
    | Join(route: Route)
    | Grab(t: nat)                    // the token arrives
    | GiveUp(t: nat)                  // cancelled while queued
    | CancelHeld(t: nat)              // cancelled as the token arrived
    | Register(t: nat, id: string)
    | Ask(t: nat)
    | Wake(t: nat, answered: bool)
    | Clean(t: nat)
    | Announce(t: nat)
    | Release(t: nat)
    | Return(t: nat)
    | Resolve(id: string, answer: Option<string>)   // an answer, or a dismissal
    | Send(k: nat)
    | CloseChan(k: nat)

  predicate At(s: State, t: nat, pc: Pc) { t < |s.waiters| && s.waiters[t].pc == pc && s.waiters[t].gate < |s.gates| }

  predicate Can(s: State, step: Step) {
    match step
    case Join(_) => true
    case Grab(t) => At(s, t, Queued) && s.gates[s.waiters[t].gate].tokens == 1
    case GiveUp(t) => At(s, t, Queued)
    case CancelHeld(t) => At(s, t, Holding)
    case Register(t, id) => At(s, t, Holding) && id !in s.pending
    case Ask(t) => At(s, t, Registered)
    case Wake(t, answered) =>
      At(s, t, Open) && s.waiters[t].chan.Some? && s.waiters[t].chan.value < |s.chans| &&
      (answered ==> s.chans[s.waiters[t].chan.value].buffer != [])
    case Clean(t) => At(s, t, Woken)
    case Announce(t) => At(s, t, Cleaned)
    case Release(t) => At(s, t, Leaving)
    case Return(t) => At(s, t, InFlight)
    case Resolve(id, _) => id in s.pending
    case Send(k) => k < |s.resolvers| && s.resolvers[k].at.Sending? && s.resolvers[k].answer.Some? &&
      s.resolvers[k].chan < |s.chans|
    case CloseChan(k) => k < |s.resolvers| && s.resolvers[k].at.Closing? && s.resolvers[k].chan < |s.chans|
  }

  function Moved(s: State, t: nat, pc: Pc): State
    requires t < |s.waiters|
  {
    s.(waiters := s.waiters[t := s.waiters[t].(pc := pc)])
  }

  function Next(s: State, step: Step): State
    requires Can(s, step)
  {
    match step
    case Join(route) => Joined(s, route)
    case Grab(t) => Grabbed(s, t)
    case GiveUp(t) => Uncounted(s, t, Gone)
    case CancelHeld(t) => Moved(s, t, Leaving)
    case Register(t, id) => RegisteredAs(s, t, id)
    case Ask(t) => Moved(s, t, Open).(events := s.events + [Asked(s.waiters[t].route, s.waiters[t].id)])
    case Wake(t, answered) => Awoken(s, t, answered)
    case Clean(t) => CleanedUp(s, t)
    case Announce(t) => Moved(s, t, Leaving).(events := s.events + [Closed(s.waiters[t].route, s.waiters[t].id)])
    case Release(t) => Uncounted(s, t, InFlight)
    case Return(t) => Returned(s, t)
    case Resolve(id, answer) => TakenBy(s, id, answer)
    case Send(k) => Sent(s, k)
    case CloseChan(k) => ClosedBy(s, k)
  }

  ghost predicate Ok(s: State) { GatesOk(s) && ChansOk(s) && EventsOk(s.events, s.waiters) }

  /** A step that changes gates and moves a waiter that shows no question. */
  lemma OnlyGates(s: State, s': State, t: nat, w: Waiter)
    requires ChansOk(s) && EventsOk(s.events, s.waiters) && GatesOk(s') && t < |s.waiters|
    requires s' == s.(gates := s'.gates, routes := s'.routes, waiters := s.waiters[t := w])
    requires w == s.waiters[t].(pc := w.pc) && w.pc in {Holding, InFlight, Gone} && !OnScreen(s.waiters[t])
    requires w.pc.Holding? ==> s.waiters[t].pc.Queued?
    requires !(s.waiters[t].pc in {Registered, Open, Woken})
    ensures Ok(s')
  {
    SteadyChans(s, t, w);
    SteadyEvents(s.events, s.waiters, t, w);
  }

  lemma GrabKeeps(s: State, t: nat)
    requires Ok(s) && Can(s, Grab(t))
    ensures Ok(Grabbed(s, t))
  {
    GrabKeepsGates(s, t);
    OnlyGates(s, Grabbed(s, t), t, Grabbed(s, t).waiters[t]);
  }

  lemma UncountKeeps(s: State, t: nat, pc: Pc)
    requires Ok(s) && (if pc.Gone? then At(s, t, Queued) else At(s, t, Leaving) && pc == InFlight)
    ensures Ok(Uncounted(s, t, pc))
  {
    UncountKeepsGates(s, t, pc);
    OnlyGates(s, Uncounted(s, t, pc), t, Uncounted(s, t, pc).waiters[t]);
  }

  lemma ReturnKeeps(s: State, t: nat)
    requires Ok(s) && Can(s, Return(t))
    ensures Ok(Returned(s, t))
  {
    ReturnKeepsGates(s, t);
    OnlyGates(s, Returned(s, t), t, Returned(s, t).waiters[t]);
  }

  /** Steps that move a token holder on. */
  lemma HolderSteps(s: State, step: Step)
    requires Ok(s) && Can(s, step) && (step.CancelHeld? || step.Ask? || step.Announce?)
    ensures Ok(Next(s, step))
  {
    var t, w := step.t, Next(s, step).waiters[step.t];
    SteadyGates(s, t, w);
    SteadyChans(s, t, w);
    HolderIsAlone(s, t);
    match step {
      case CancelHeld(_) => SteadyEvents(s.events, s.waiters, t, w);
      case Ask(_) => AskKeepsEvents(s.events, s.waiters, t);
      case Announce(_) => CloseKeepsEvents(s.events, s.waiters, t);
    }
  }

  lemma ChannelSteps(s: State, step: Step)
    requires Ok(s) && Can(s, step) && (step.Register? || step.Wake? || step.Clean?)
    ensures Ok(Next(s, step))
  {
    var t, w := step.t, Next(s, step).waiters[step.t];
    match step {
      case Register(_, id) => RegisterKeepsChans(s, t, id);
      case Wake(_, answered) => if answered { AnsweredKeepsChans(s, t); } else { SteadyChans(s, t, w); }
      case Clean(_) => CleanKeepsChans(s, t);
    }
    SteadyGates(s, t, w);
    SteadyEvents(s.events, s.waiters, t, w);
  }

  lemma JoinAddsWaiter(s: State, s': State, w: Waiter)
    requires ChansOk(s) && EventsOk(s.events, s.waiters) && GatesOk(s')
    requires s' == s.(gates := s'.gates, routes := s'.routes, waiters := s.waiters + [w])
    requires w.chan.None? && w.answer.None? && !OnScreen(w)
    ensures Ok(s')
  {
    JoinKeepsChans(s, w);
    JoinKeepsEvents(s.events, s.waiters, w);
  }

  lemma JoinKeeps(s: State, route: Route)
    requires Ok(s)
    ensures Ok(Joined(s, route))
  {
    JoinKeepsGates(s, route);
    JoinAddsWaiter(s, Joined(s, route), Joined(s, route).waiters[|s.waiters|]);
  }

  lemma StepKeeps(s: State, step: Step)
    requires Ok(s) && Can(s, step)
    ensures Ok(Next(s, step))
  {
    match step
    case Join(route) => JoinKeeps(s, route);
    case Resolve(id, answer) => TakeKeepsChans(s, id, answer);
    case Send(k) => SendKeepsChans(s, k);
    case CloseChan(k) => CloseKeepsChans(s, k);
    case Grab(t) => GrabKeeps(s, t);
    case GiveUp(t) => UncountKeeps(s, t, Gone);
    case Release(t) => UncountKeeps(s, t, InFlight);
    case Return(t) => ReturnKeeps(s, t);
    case CancelHeld(_) => HolderSteps(s, step);
    case Ask(_) => HolderSteps(s, step);
    case Announce(_) => HolderSteps(s, step);
    case Register(_, _) => ChannelSteps(s, step);
    case Wake(_, _) => ChannelSteps(s, step);
    case Clean(_) => ChannelSteps(s, step);
  }

  const START := State(map[], map[], [], [], [], [], [])

  /** The steps lead from `from` to `s`. */
  predicate Leads(from: State, steps: seq<Step>, s: State)
    decreases |steps|
  {
    if steps == [] then s == from else Can(from, steps[0]) && Leads(Next(from, steps[0]), steps[1..], s)
  }

  lemma {:induction false} OkAfter(from: State, steps: seq<Step>, s: State)
    requires Ok(from) && Leads(from, steps, s)
    ensures Ok(s)
    decreases |steps|
  {
    if steps != [] {
      StepKeeps(from, steps[0]);
      OkAfter(Next(from, steps[0]), steps[1..], s);
    }
  }

  /** Over every interleaving: what a chat shows alternates between asking and closing
      the same question, and no two questions of a chat are open at once. */
  lemma OneQuestionAtATime(steps: seq<Step>, s: State, t: nat, u: nat)
    requires Leads(START, steps, s)
    ensures Alternating(s.events)
    ensures t < |s.waiters| && u < |s.waiters| && t != u && OnScreen(s.waiters[t]) && OnScreen(s.waiters[u]) ==>
              s.waiters[t].route != s.waiters[u].route
  {
    OkAfter(START, steps, s);
    if t < |s.waiters| && u < |s.waiters| && t != u && OnScreen(s.waiters[t]) { HolderIsAlone(s, t); }
  }

  /** Over every interleaving, neither of the two buffered sends ever finds its channel
      full: there is never a second token, nor a second answer. */
  lemma SendsNeverBlock(steps: seq<Step>, s: State)
    requires Leads(START, steps, s)
    ensures forall t :: 0 <= t < |s.waiters| && s.waiters[t].pc.InFlight? ==>
              s.waiters[t].gate < |s.gates| && s.gates[s.waiters[t].gate].tokens == 0
    ensures forall k :: 0 <= k < |s.resolvers| && s.resolvers[k].at.Sending? ==>
              s.resolvers[k].chan < |s.chans| && s.chans[s.resolvers[k].chan] == FRESH
    ensures forall c :: 0 <= c < |s.chans| ==> s.chans[c].sent <= 1
  {
    OkAfter(START, steps, s);
    forall t | 0 <= t < |s.waiters| && s.waiters[t].pc.InFlight?
      ensures s.waiters[t].gate < |s.gates| && s.gates[s.waiters[t].gate].tokens == 0
    {
      ReturnKeepsGates(s, t);
    }
  }

  /** Over every interleaving, a gate somebody counts on has its one token in exactly
      one place. */
  lemma TokenIsSomewhere(steps: seq<Step>, s: State, g: nat)
    requires Leads(START, steps, s) && g < |s.gates| && s.gates[g].refs > 0
    ensures s.gates[g].tokens + |set t | 0 <= t < |s.waiters| && HasToken(s.waiters[t], g)| == 1
  {
    OkAfter(START, steps, s);
    OneTokenInAll(s.gates[g], s.waiters, g);
  }

  lemma OneTokenInAll(gate: Gate, ws: seq<Waiter>, g: nat)
    requires GateOk(gate, ws, g) && gate.refs > 0
    ensures gate.tokens + |set t | 0 <= t < |ws| && HasToken(ws[t], g)| == 1
  {
    var holders := set t | 0 <= t < |ws| && HasToken(ws[t], g);
    if gate.tokens == 1 {
      assert holders == {};
    } else {
      var t :| 0 <= t < |ws| && HasToken(ws[t], g);
      assert holders == {t};
    }
  }

  /** The resolver took the waiter's question, over its channel, and gave its answer. */
  predicate Answers(r: Resolver, w: Waiter) {
    w.chan == Some(r.chan) && r.id == w.id && r.answer == w.answer
  }

  /** Over every interleaving, an answer reaches only the waiter whose question it was
      given to. */
  lemma AnswersReachTheirQuestion(steps: seq<Step>, s: State, t: nat)
    requires Leads(START, steps, s) && t < |s.waiters| && s.waiters[t].answer.Some?
    ensures s.waiters[t].chan.Some? && exists k :: 0 <= k < |s.resolvers| && Answers(s.resolvers[k], s.waiters[t])
  {
    OkAfter(START, steps, s);
    var w := s.waiters[t];
    var k :| 0 <= k < |s.resolvers| && Gave(s.resolvers[k], w.chan.value, w.answer.value);
    assert AskedFor(s.resolvers[k], s.waiters);
    var u :| 0 <= u < |s.waiters| && s.waiters[u].chan == Some(s.resolvers[k].chan) &&
      s.waiters[u].id == s.resolvers[k].id;
    assert u == t;
  }

  // ------------------------------------------------------------- the registry

  /** askUserRegistry. Its methods are the sections under its lock, each one step of the
      interleaving above; what the waiters and resolvers around it are doing is ghost
      state. */
  class Registry {
    var pending: map<string, nat>
    var routes: map<Route, nat>
    var gates: seq<Gate>
    var chans: seq<Chan>
    ghost var waiters: seq<Waiter>
    ghost var resolvers: seq<Resolver>
    ghost var events: seq<Event>

    constructor ()
      ensures View() == START
    {
      pending, routes, gates, chans, waiters, resolvers, events := map[], map[], [], [], [], [], [];
    }

    ghost function View(): State
      reads this
    {
      State(pending, routes, gates, chans, waiters, resolvers, events)
    }

    /** The locked section of acquireRoute; returns the gate to wait at. */
    method AcquireRoute(route: Route) returns (g: nat)
      requires RoutesOk(routes, gates)
      modifies this`gates, this`routes, this`waiters
      ensures View() == Joined(old(View()), route) && g < |gates|
      ensures waiters == old(waiters) + [Waiter(route, g, Queued, "", None, None)]
    {
      if route in routes {
        g := routes[route];
        gates := gates[g := gates[g].(refs := gates[g].refs + 1)];
      } else {
        g := |gates|;
        gates := gates + [Gate(route, 1, 1)];
        routes := routes[route := g];
      }
      waiters := waiters + [Waiter(route, g, Queued, "", None, None)];
    }

    /** The locked section of releaseRoute and abandonRoute, which differ in what the
        caller does next: unless it was the last user, a releasing one still has to put
        the token back. */
    method Uncount(route: Route, g: nat, ghost t: nat, ghost pc: Pc) returns (last: bool)
      requires t < |waiters| && g < |gates| && waiters[t].gate == g && waiters[t].route == route
      modifies this`gates, this`routes, this`waiters
      ensures View() == Uncounted(old(View()), t, pc) && (last <==> gates[g].refs == 0)
    {
      gates := gates[g := gates[g].(refs := gates[g].refs - 1)];
      last := gates[g].refs == 0;
      if last && route in routes && routes[route] == g {
        routes := routes - {route};
      }
      waiters := waiters[t := waiters[t].(pc := if last then Gone else pc)];
    }

    method Register(id: string, ghost t: nat) returns (ch: Option<nat>)
      requires t < |waiters|
      modifies this`pending, this`chans, this`waiters
      ensures ch.Some? <==> id !in old(pending)
      ensures View() == if ch.Some? then RegisteredAs(old(View()), t, id) else old(View())
      ensures ch.Some? ==> id in pending && pending[id] == ch.value && waiters[t].chan == ch
    {
      if id in pending {
        return None;
      }
      ch := Some(|chans|);
      pending := pending[id := |chans|];
      chans := chans + [FRESH];
      waiters := waiters[t := waiters[t].(pc := Registered, id := id, chan := ch)];
    }

    /** The locked section of resolve and, without an answer, of cancel. */
    method TakeOwner(id: string, answer: Option<string>) returns (ch: Option<nat>)
      modifies this`pending, this`resolvers
      ensures (ch.Some? <==> id in old(pending)) && (ch.Some? ==> ch.value == old(pending)[id])
      ensures View() == if ch.Some? then TakenBy(old(View()), id, answer) else old(View())
    {
      if id !in pending {
        return None;
      }
      ch := Some(pending[id]);
      resolvers := resolvers + [Resolver(id, pending[id], answer, if answer.Some? then Sending else Closing)];
      pending := pending - {id};
    }

    method Cleanup(id: string, ch: nat, ghost t: nat)
      requires t < |waiters| && waiters[t].id == id && waiters[t].chan == Some(ch)
      modifies this`pending, this`waiters
      ensures View() == CleanedUp(old(View()), t)
      ensures forall x :: x in old(pending) && old(pending)[x] != ch ==> x in pending && pending[x] == old(pending)[x]
    {
      if id in pending && pending[id] == ch {
        pending := pending - {id};
      }
      waiters := waiters[t := waiters[t].(pc := Cleaned)];
    }
  }
}
