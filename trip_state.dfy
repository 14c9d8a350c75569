/**
  The per-trip record: the trip request it was created for and, per agent type,
  the most recently received proposal (last write wins).
*/
module TripStates {
  import opened Wrappers
  import opened Messages

  /** Every stored proposal sits under its own agent type. */
  ghost predicate KeyedByAgent(proposals: map<AgentType, TravelProposal>)
  {
    forall t :: t in proposals ==> proposals[t].agentType == t
  }

  /** The value a `TripState` holds at one moment. */
  datatype TripView = TripView(request: TravelRequest, proposals: map<AgentType, TravelProposal>)

  /** The trip state just created for `request`: nothing received yet. */
  function Fresh(request: TravelRequest): (v: TripView)
    ensures v.request == request
    ensures forall t :: Lookup(v, t) == None
  {
    TripView(request, map[])
  }

  /** `GetProposal` on a value. */
  function Lookup(v: TripView, t: AgentType): (r: Option<TravelProposal>)
    ensures r.Some? <==> t in v.proposals
    ensures r.Some? && KeyedByAgent(v.proposals) ==> r.value.agentType == t
  {
    if t in v.proposals then Some(v.proposals[t]) else None
  }

  /** `AddProposal` on a value. */
  function WithProposal(v: TripView, p: TravelProposal): (w: TripView)
    ensures w.request == v.request
    ensures Lookup(w, p.agentType) == Some(p)
    ensures forall t :: t != p.agentType ==> Lookup(w, t) == Lookup(v, t)
    ensures KeyedByAgent(v.proposals) ==> KeyedByAgent(w.proposals)
  {
    TripView(v.request, v.proposals[p.agentType := p])
  }

  /** Of two proposals of the same agent type, the one added last is kept. */
  lemma LastWriteWins(v: TripView, p1: TravelProposal, p2: TravelProposal)
    requires p1.agentType == p2.agentType
    ensures WithProposal(WithProposal(v, p1), p2) == WithProposal(v, p2)
  {
  }

  /** Proposals of different agent types can be added in either order. */
  lemma DifferentAgentsCommute(v: TripView, p1: TravelProposal, p2: TravelProposal)
    requires p1.agentType != p2.agentType
    ensures WithProposal(WithProposal(v, p1), p2) == WithProposal(WithProposal(v, p2), p1)
  {
  }

  /**
    `record TripState(TravelRequest Request)` with its private proposal
    dictionary, which `AddProposal` overwrites in place.
  */
  class TripState {
    const request: TravelRequest
    var proposals: map<AgentType, TravelProposal>

    ghost predicate Valid()
      reads this
    {
      KeyedByAgent(proposals)
    }

    ghost function View(): TripView
      reads this
    {
      TripView(request, proposals)
    }

    constructor (request: TravelRequest)
      ensures Valid()
      ensures View() == Fresh(request)
    {
      this.request := request;
      proposals := map[];
    }

    method AddProposal(p: TravelProposal)
      requires Valid()
      modifies this
      ensures Valid()
      ensures View() == WithProposal(old(View()), p)
    {
      proposals := proposals[p.agentType := p];
    }

    function GetProposal(t: AgentType): (r: Option<TravelProposal>)
      requires Valid()
      reads this
      ensures r == Lookup(View(), t)
      ensures r.Some? ==> r.value.agentType == t
    {
      if t in proposals then Some(proposals[t]) else None
    }
  }
}
