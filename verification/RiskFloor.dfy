/** The risk floor that the tools of a proposal declare. */
module RiskFloor {
  import opened Core

  function DeclaredFloor(candidate: Candidate, tools: Tools): Option<Tier> {
    match FindTool(tools, candidate.toolName)
    case None => None
    case Some(tool) => tool.riskFloor
  }

  /** The highest of two optional tiers, or the one that is there. */
  function MaxTier(a: Option<Tier>, b: Option<Tier>): Option<Tier> {
    if a.None? then b else if b.None? then a else Some(Higher(a.value, b.value))
  }

  function ProposalFloor(candidates: seq<Candidate>, tools: Tools): Option<Tier> {
    if candidates == [] then None
    else MaxTier(DeclaredFloor(candidates[0], tools), ProposalFloor(candidates[1..], tools))
  }

  method GetProposalFloor(candidates: seq<Candidate>, tools: Tools) returns (highest: Option<Tier>)
    ensures highest == ProposalFloor(candidates, tools)
  {
    highest := None;
    for i := 0 to |candidates|
      invariant MaxTier(highest, ProposalFloor(candidates[i..], tools)) == ProposalFloor(candidates, tools)
    {
      assert candidates[i..][1..] == candidates[i + 1..];
      var tool := FindTool(tools, candidates[i].toolName);
      if tool.Some? && tool.value.riskFloor.Some? {
        var floor := tool.value.riskFloor.value;
        if highest.None? || floor.Rank() > highest.value.Rank() {
          highest := Some(floor);
        }
      }
    }
  }

  /** The floor is the maximum: declared by some candidate and exceeded by none. */
  lemma {:induction false} FloorIsMaximum(candidates: seq<Candidate>, tools: Tools)
    ensures var floor := ProposalFloor(candidates, tools);
            && (floor.Some? ==> exists c :: c in candidates && DeclaredFloor(c, tools) == floor)
            && forall c :: c in candidates && DeclaredFloor(c, tools).Some? ==>
                 floor.Some? && floor.value.Rank() >= DeclaredFloor(c, tools).value.Rank()
  {
    if candidates != [] {
      FloorIsMaximum(candidates[1..], tools);
      var floor := ProposalFloor(candidates, tools);
      if floor.Some? && DeclaredFloor(candidates[0], tools) != floor {
        var c :| c in candidates[1..] && DeclaredFloor(c, tools) == floor;
        assert c in candidates;
      }
      forall c | c in candidates && DeclaredFloor(c, tools).Some?
        ensures floor.Some? && floor.value.Rank() >= DeclaredFloor(c, tools).value.Rank()
      {
        assert c == candidates[0] || c in candidates[1..];
      }
    }
  }

  /** On the tools as they are registered: the highest floor that the tool of some candidate declares, unknown tools aside. */
  lemma FloorMeaning(candidates: seq<Candidate>, tools: Tools)
    ensures var floor := ProposalFloor(candidates, tools);
            && (floor.Some? ==> exists c :: c in candidates && c.toolName in tools && tools[c.toolName].riskFloor == floor)
            && forall c :: c in candidates && c.toolName in tools && tools[c.toolName].riskFloor.Some? ==>
                 floor.Some? && floor.value.Rank() >= tools[c.toolName].riskFloor.value.Rank()
  {
    FloorIsMaximum(candidates, tools);
    forall c | c in candidates && c.toolName in tools ensures DeclaredFloor(c, tools) == tools[c.toolName].riskFloor {
    }
  }
}
