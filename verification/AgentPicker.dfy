// pick_agent_for_kind: the least eligible gateway under a lexicographic rank.
module AgentPicker {
  import opened Domain

  type Skill = nat   // capability names after lower-casing

  datatype AgentStatus = Online | Busy | Offline

  datatype Agent = Agent(id: AgentId, status: AgentStatus, hasEndpoint: bool, skills: set<Skill>)

  predicate Eligible(a: Agent, exclude: set<AgentId>) {
    a.status != Offline && a.hasEndpoint && a.id !in exclude
  }

  // (capability mismatch, busy, id), compared lexicographically.
  function Rank(a: Agent, kind: Skill): (int, int, int) {
    (if kind in a.skills then 0 else 1, if a.status == Online then 0 else 1, a.id)
  }

  predicate Before(x: (int, int, int), y: (int, int, int)) {
    x.0 < y.0 || (x.0 == y.0 && (x.1 < y.1 || (x.1 == y.1 && x.2 < y.2)))
  }

  // The first of the least-ranked eligible agents, as a stable sort leaves it.
  function Pick(agents: seq<Agent>, kind: Skill, exclude: set<AgentId>): (r: Option<Agent>)
    ensures r == None <==> forall a :: a in agents ==> !Eligible(a, exclude)
    ensures r.Some? ==> r.value in agents && Eligible(r.value, exclude)
    ensures r.Some? ==> forall a :: a in agents && Eligible(a, exclude) ==> !Before(Rank(a, kind), Rank(r.value, kind))
  {
    if agents == [] then None
    else
      var rest := Pick(agents[1..], kind, exclude);
      if !Eligible(agents[0], exclude) then rest
      else if rest.Some? && Before(Rank(rest.value, kind), Rank(agents[0], kind)) then rest
      else Some(agents[0])
  }

  // Who is picked: not offline, with an endpoint, not excluded; with the skill if
  // anyone such has it; then online rather than busy; then the smallest id.
  lemma PickPrefers(agents: seq<Agent>, kind: Skill, exclude: set<AgentId>, a: Agent)
    requires a in agents && a.status in {Online, Busy} && a.hasEndpoint && a.id !in exclude
    ensures var p := Pick(agents, kind, exclude);
      && p.Some? && p.value in agents && p.value.status in {Online, Busy} && p.value.hasEndpoint && p.value.id !in exclude
      && (kind in a.skills ==> kind in p.value.skills)
      && (kind in a.skills && a.status == Online ==> p.value.status == Online)
      && (kind !in p.value.skills && a.status == Online ==> p.value.status == Online)
      && ((kind in a.skills <==> kind in p.value.skills) && a.status == p.value.status ==> p.value.id <= a.id)
  {
    assert Eligible(a, exclude);
    var p := Pick(agents, kind, exclude).value;
    assert !Before(Rank(a, kind), Rank(p, kind));
  }

  // The three tiers: whoever was used neither in the cycle nor in the bundle, else
  // whoever was not in the cycle, else anyone.
  lemma DiverseTiers(agents: seq<Agent>, kind: Skill, tried: set<AgentId>, used: set<AgentId>)
    ensures var p := PickDiverse(agents, kind, tried, used);
      if exists a :: a in agents && Eligible(a, tried + used) then p == Pick(agents, kind, tried + used)
      else if exists a :: a in agents && Eligible(a, tried) then p == Pick(agents, kind, tried)
      else p == Pick(agents, kind, {})
  {
  }

  // With unique ids the choice does not depend on the order of the list.
  lemma PickIgnoresOrder(xs: seq<Agent>, ys: seq<Agent>, kind: Skill, exclude: set<AgentId>)
    requires forall a :: a in xs <==> a in ys
    requires forall a, b :: a in xs && b in xs && a.id == b.id ==> a == b
    ensures Pick(xs, kind, exclude) == Pick(ys, kind, exclude)
  {
    var x, y := Pick(xs, kind, exclude), Pick(ys, kind, exclude);
    if x.Some? && y.Some? {
      assert !Before(Rank(x.value, kind), Rank(y.value, kind)) && !Before(Rank(y.value, kind), Rank(x.value, kind));
    }
  }

  // _pick_with_diversity: fresh for the bundle, else fresh for this cycle, else anyone.
  function PickDiverse(agents: seq<Agent>, kind: Skill, tried: set<AgentId>, used: set<AgentId>): (r: Option<Agent>)
    ensures r == None <==> forall a :: a in agents ==> !Eligible(a, {})
    ensures r.Some? ==> r.value in agents && Eligible(r.value, {})
    // reuse within the cycle only when every eligible agent has been tried
    ensures r.Some? && r.value.id in tried ==> forall a :: a in agents && Eligible(a, {}) ==> a.id in tried
    // reuse within the bundle only when every agent fresh for the cycle is used
    ensures r.Some? && r.value.id in used && r.value.id !in tried ==>
      forall a :: a in agents && Eligible(a, tried) ==> a.id in used
  {
    var unused := Pick(agents, kind, tried + used);
    if unused.Some? then unused
    else
      var untried := Pick(agents, kind, tried);
      if untried.Some? then untried else Pick(agents, kind, {})
  }

  lemma PickDiverseIgnoresOrder(xs: seq<Agent>, ys: seq<Agent>, kind: Skill, tried: set<AgentId>, used: set<AgentId>)
    requires forall a :: a in xs <==> a in ys
    requires forall a, b :: a in xs && b in xs && a.id == b.id ==> a == b
    ensures PickDiverse(xs, kind, tried, used) == PickDiverse(ys, kind, tried, used)
  {
    PickIgnoresOrder(xs, ys, kind, tried + used);
    PickIgnoresOrder(xs, ys, kind, tried);
    PickIgnoresOrder(xs, ys, kind, {});
  }
}
