/** The guard on chains of delegations (internal/studio/delegation_guard.go): how far
    one human action may travel from project to project. */
module DelegationGuard {
  import opened Wrappers

  datatype Stamp = Stamp(chainId: string, depth: nat, chain: seq<string>)

  // The same record as the engine carries it on a tool call; a zero value is no stamp.
  datatype ToolContext = ToolContext(chainId: string, depth: nat, chain: seq<string>)

  datatype Verdict = Legal | DepthLimit | Cycle

  function Depth(d: Option<Stamp>): nat { if d.Some? then d.value.depth else 0 }
  function Chain(d: Option<Stamp>): seq<string> { if d.Some? then d.value.chain else [] }

  function ToToolContext(d: Option<Stamp>): ToolContext {
    match d
    case None => ToolContext("", 0, [])
    case Some(s) => ToolContext(s.chainId, s.depth, s.chain)
  }

  function FromToolContext(c: ToolContext): Option<Stamp> {
    if c.chainId == "" && c.depth == 0 && c.chain == [] then None else Some(Stamp(c.chainId, c.depth, c.chain))
  }

  /** Going through a tool call loses nothing but the stamp that says nothing. */
  lemma ToolContextRoundTrip(d: Option<Stamp>)
    ensures FromToolContext(ToToolContext(d)) == d <==> d != Some(Stamp("", 0, []))
  {
  }

  /** delegationHopAllowed, for a hop from project `origin` to `target`. */
  function Judge(limit: nat, parent: Option<Stamp>, origin: string, target: string): Verdict {
    if Depth(parent) >= limit then DepthLimit
    else if target == origin then Legal
    else if target in Chain(parent) then Cycle
    else Legal
  }

  function Seeded(parent: Option<Stamp>, origin: string): seq<string> {
    if parent.Some? then parent.value.chain else if origin != "" then [origin] else []
  }

  /** The chain before the defensive cap. */
  function Extended(parent: Option<Stamp>, origin: string, target: string): seq<string> {
    var seeded := Seeded(parent, origin);
    if target != "" && (seeded == [] || seeded[|seeded| - 1] != target) then seeded + [target] else seeded
  }

  function Capped(limit: nat, chain: seq<string>): seq<string> {
    if |chain| > limit + 1 then chain[|chain| - (limit + 1)..] else chain
  }

  function NextStamp(limit: nat, parent: Option<Stamp>, chainId: string, origin: string, target: string): Stamp {
    var id := if parent.Some? && parent.value.chainId != "" then parent.value.chainId else chainId;
    Stamp(id, Depth(parent) + 1, Capped(limit, Extended(parent, origin, target)))
  }

  /** nextDelegationStamp. */
  method NextDelegationStamp(limit: nat, parent: Option<Stamp>, chainId: string, origin: string, target: string)
    returns (next: Stamp)
    ensures next == NextStamp(limit, parent, chainId, origin, target)
  {
    var id, depth, chain := chainId, 1, [];
    if parent.Some? {
      id, depth, chain := parent.value.chainId, parent.value.depth + 1, parent.value.chain;
    } else if origin != "" {
      chain := [origin];
    }
    assert chain == Seeded(parent, origin);
    if id == "" {
      id := chainId;
    }
    if target != "" && (|chain| == 0 || chain[|chain| - 1] != target) {
      chain := chain + [target];
    }
    assert chain == Extended(parent, origin, target);
    if |chain| > limit + 1 {
      chain := chain[|chain| - (limit + 1)..];
    }
    return Stamp(id, depth, chain);
  }

  // ------------------------------------------------------------ chains of hops

  datatype Hop = Hop(chainId: string, target: string)

  // A running turn: its project, and the stamp it was started with.
  datatype Turn = Turn(here: string, stamp: Option<Stamp>)

  /** Where the hops lead from a human turn in `origin`, if every one is admitted;
      targets are existing projects, so never the empty ID. */
  function Reached(limit: nat, origin: string, hops: seq<Hop>): Option<Turn> {
    if hops == [] then Some(Turn(origin, None))
    else
      var n := |hops| - 1;
      var before := Reached(limit, origin, hops[..n]);
      var target := hops[n].target;
      if before.None? || target == "" || Judge(limit, before.value.stamp, before.value.here, target) != Legal then None
      else
        Some(Turn(target, Some(NextStamp(limit, before.value.stamp, hops[n].chainId, before.value.here, target))))
  }

  /** The projects visited, in order, without counting a stay in the same one. */
  function Visited(origin: string, hops: seq<Hop>): (v: seq<string>)
    ensures v != [] && v[0] == origin && |v| <= |hops| + 1
    ensures v[|v| - 1] == if hops == [] then origin else hops[|hops| - 1].target
  {
    if hops == [] then [origin]
    else
      var v := Visited(origin, hops[..|hops| - 1]);
      var target := hops[|hops| - 1].target;
      if v[|v| - 1] == target then v else v + [target]
  }

  predicate Distinct(v: seq<string>) { forall i, j :: 0 <= i < j < |v| ==> v[i] != v[j] }

  /** One admitted hop extends a chain of distinct projects that ends here. */
  lemma HopExtends(limit: nat, parent: Option<Stamp>, here: string, target: string, v: seq<string>)
    requires here != "" && target != "" && v != [] && v[|v| - 1] == here && Distinct(v)
    requires if parent.Some? then parent.value.chain == v else v == [here]
    requires Judge(limit, parent, here, target).Legal?
    ensures var v' := if here == target then v else v + [target];
            Extended(parent, here, target) == v' && Distinct(v')
  {
  }

  /** The stamp of an admitted turn tells the whole truth: its depth is the number of
      hops, and its chain is every project visited, origin first and the current one
      last. The cap never drops one. */
  lemma {:induction false} StampTellsAll(limit: nat, origin: string, hops: seq<Hop>)
    requires origin != "" && Reached(limit, origin, hops).Some?
    ensures var t := Reached(limit, origin, hops).value;
            t.here == (if hops == [] then origin else hops[|hops| - 1].target) && t.here != "" &&
            (t.stamp.None? <==> hops == []) &&
            (hops != [] ==>
               t.stamp.value.depth == |hops| <= limit && t.stamp.value.chain == Visited(origin, hops))
    ensures Distinct(Visited(origin, hops)) && |Visited(origin, hops)| <= |hops| + 1
  {
    if hops != [] {
      var n := |hops| - 1;
      StampTellsAll(limit, origin, hops[..n]);
      var before := Reached(limit, origin, hops[..n]).value;
      var stamp := NextStamp(limit, before.stamp, hops[n].chainId, before.here, hops[n].target);
      assert Reached(limit, origin, hops) == Some(Turn(hops[n].target, Some(stamp)));
      HopExtends(limit, before.stamp, before.here, hops[n].target, Visited(origin, hops[..n]));
    }
  }

  /** Every stamp of a chain carries the ID drawn for its first hop. */
  lemma {:induction false} ChainIdStays(limit: nat, origin: string, hops: seq<Hop>)
    requires hops != [] && hops[0].chainId != "" && Reached(limit, origin, hops).Some?
    ensures var t := Reached(limit, origin, hops).value; t.stamp.Some? && t.stamp.value.chainId == hops[0].chainId
  {
    var n := |hops| - 1;
    if n > 0 {
      ChainIdStays(limit, origin, hops[..n]);
    } else {
      assert hops[..0] == [];
    }
  }

  lemma {:induction false} ShortLoopFreeIsAdmitted(limit: nat, origin: string, hops: seq<Hop>)
    requires origin != "" && forall i :: 0 <= i < |hops| ==> hops[i].target != ""
    requires |hops| <= limit && Distinct(Visited(origin, hops))
    ensures Reached(limit, origin, hops).Some?
  {
    if hops != [] {
      var n := |hops| - 1;
      var v := Visited(origin, hops[..n]);
      assert v <= Visited(origin, hops);
      ShortLoopFreeIsAdmitted(limit, origin, hops[..n]);
      StampTellsAll(limit, origin, hops[..n]);
      var before := Reached(limit, origin, hops[..n]).value;
      assert hops[n].target != before.here && n > 0 ==> hops[n].target !in Chain(before.stamp);
    }
  }

  /** Exactly the chains of at most `limit` hops that never come back to a project
      they have left are admitted. */
  lemma AdmittedExactly(limit: nat, origin: string, hops: seq<Hop>)
    requires origin != "" && forall i :: 0 <= i < |hops| ==> hops[i].target != ""
    ensures Reached(limit, origin, hops).Some? <==> |hops| <= limit && Distinct(Visited(origin, hops))
  {
    if Reached(limit, origin, hops).Some? {
      StampTellsAll(limit, origin, hops);
    }
    if |hops| <= limit && Distinct(Visited(origin, hops)) {
      ShortLoopFreeIsAdmitted(limit, origin, hops);
    }
  }

  /** The stamps that travel with admitted turns survive their tool calls. */
  lemma AdmittedStampsSurvive(limit: nat, origin: string, hops: seq<Hop>)
    requires origin != "" && Reached(limit, origin, hops).Some?
    ensures var stamp := Reached(limit, origin, hops).value.stamp;
            FromToolContext(ToToolContext(stamp)) == stamp
  {
  }
}
