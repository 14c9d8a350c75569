/**
  The orchestrator and the two CloudEvent suppliers (Air and Train) wired
  together through their channels, with no send throwing. The orchestrator
  keeps no count of refinement rounds and the suppliers keep no state, so a
  supplier whose refined quote is still over the threshold is asked again on
  every reply.
*/
module Negotiation {
  import opened Wrappers
  import opened Messages
  import opened Bus
  import opened TripStates
  import Suppliers
  import Planner = TravelPlannerService
  import AirAgent = AirTravelAgent
  import TrainAgent = TrainTravelAgent
  import RoadTravelAgent
  import AccommodationAgent
  import RentalCarAgent

  /** The reply of the CloudEvent supplier subscribed to the search channel `channel`, if there is one. */
  function DeliverSearch(channel: string, ev: CloudEvent): seq<Action>
  {
    if channel == AirAgent.SearchChannel then AirAgent.OnSearch(ev, None)
    else if channel == TrainAgent.SearchChannel then TrainAgent.OnSearch(ev, None)
    else []
  }

  /** The reply of the CloudEvent supplier subscribed to the refine channel `channel`, if there is one. */
  function DeliverRefinement(channel: string, ev: CloudEvent): seq<Action>
  {
    if channel == AirAgent.RefineChannel then AirAgent.OnRefine(ev, None)
    else if channel == TrainAgent.RefineChannel then TrainAgent.OnRefine(ev, None)
    else []
  }

  /** The trip-state map at the end of an exchange, and everything sent and acknowledged on the way. */
  datatype Outcome = Outcome(final: Planner.Store, trace: seq<Action>)

  /**
    A proposal event arriving on `travel.proposals`: the orchestrator's actions,
    then the reply of the supplier its refine send reaches, then the same again
    for that reply, for at most `n` replies. Also gives the final store.
  */
  function Rounds(store: Planner.Store, ev: CloudEvent, n: nat): Outcome
    decreases n
  {
    var acts := Planner.ProposalActions(store, ev, None);
    var next := Planner.ProposalStore(store, ev);
    if n == 0 || acts == [] || !acts[0].Send? || !acts[0].message.Event? then Outcome(next, acts)
    else
      var reply := DeliverRefinement(acts[0].channel, acts[0].message.event);
      if |reply| == 1 && reply[0].Send? && reply[0].channel == ProposalsChannel && reply[0].message.Event? then
        var rest := Rounds(next, reply[0].message.event, n - 1);
        Outcome(rest.final, acts + reply + rest.trace)
      else Outcome(next, acts + reply)
  }

  /** The refinement the orchestrator sends for `p` reaches the supplier it names, which answers it. */
  lemma RefinementAnswered(store: Planner.Store, p: TravelProposal)
    requires p.agentType == Air || p.agentType == Train
    requires p.tripId in store
    requires Planner.OverBudget(p.estimatedCost, store[p.tripId].request.budget)
    ensures var acts := Planner.ProposalActions(store, ProposalEvent(p), None);
      var refinement := Planner.GenerateRefinementFeedback(store[p.tripId].request, p).value;
      && acts == [Send(Planner.RefineChannelOf(p.agentType),
                       Event(Planner.RefinementEvent(store[p.tripId].request, p))), Complete]
      && DeliverRefinement(acts[0].channel, acts[0].message.event) ==
           [Suppliers.ProposalEventSend(
              if p.agentType == Air then AirAgent.Refine(refinement) else TrainAgent.Refine(refinement))]
  {
    Planner.RefinementIffOverBudget(store, p);
  }

  /** The estimate the supplier of type `t` quotes on every refinement. */
  function RefinedCost(t: AgentType): Decimal
    requires t == Air || t == Train
  {
    if t == Air then AirAgent.RefinedCost else TrainAgent.RefinedCost
  }

  /** The supplier's answer to the refinement the orchestrator sends for `p`. */
  function Answer(store: Planner.Store, p: TravelProposal): (q: TravelProposal)
    requires p.agentType == Air || p.agentType == Train
    requires p.tripId in store
    requires Planner.OverBudget(p.estimatedCost, store[p.tripId].request.budget)
    ensures q.tripId == p.tripId && q.agentType == p.agentType
    ensures q.estimatedCost == RefinedCost(p.agentType)
  {
    var refinement := Planner.GenerateRefinementFeedback(store[p.tripId].request, p).value;
    if p.agentType == Air then AirAgent.Refine(refinement) else TrainAgent.Refine(refinement)
  }

  /** The orchestrator's actions for an over-budget proposal hold one send to the supplier's refine channel. */
  lemma OneRefineSend(store: Planner.Store, p: TravelProposal)
    requires p.agentType == Air || p.agentType == Train
    requires p.tripId in store
    requires Planner.OverBudget(p.estimatedCost, store[p.tripId].request.budget)
    ensures SendsTo(Planner.ProposalActions(store, ProposalEvent(p), None),
                    Planner.RefineChannelOf(p.agentType)) == 1
  {
    var channel := Planner.RefineChannelOf(p.agentType);
    var acts := Planner.ProposalActions(store, ProposalEvent(p), None);
    RefinementAnswered(store, p);
    SendsToOne(acts[0], channel);
    SendsToOne(Complete, channel);
    assert acts == [acts[0]] + [Complete];
    SendsToAppend([acts[0]], [Complete], channel);
  }

  /** With no reply left to follow, an over-budget proposal gives one refine send and keeps the trip's request. */
  lemma LastRound(store: Planner.Store, p: TravelProposal)
    requires p.agentType == Air || p.agentType == Train
    requires p.tripId in store
    requires Planner.OverBudget(p.estimatedCost, store[p.tripId].request.budget)
    ensures SendsTo(Rounds(store, ProposalEvent(p), 0).trace, Planner.RefineChannelOf(p.agentType)) == 1
    ensures p.tripId in Rounds(store, ProposalEvent(p), 0).final
    ensures Rounds(store, ProposalEvent(p), 0).final[p.tripId].request == store[p.tripId].request
  {
    Planner.ProposalStoreEffect(store, ProposalEvent(p));
    OneRefineSend(store, p);
  }

  /**
    One round for an over-budget proposal: a refine send to the supplier's
    channel, the acknowledgement, the supplier's answer, then the rounds for
    that answer; the trip keeps its request.
  */
  lemma Step(store: Planner.Store, p: TravelProposal, n: nat)
    requires p.agentType == Air || p.agentType == Train
    requires p.tripId in store
    requires Planner.OverBudget(p.estimatedCost, store[p.tripId].request.budget)
    requires n >= 1
    ensures var next := Planner.ProposalStore(store, ProposalEvent(p));
      var head := Planner.ProposalActions(store, ProposalEvent(p), None) +
                  [Suppliers.ProposalEventSend(Answer(store, p))];
      var rest := Rounds(next, ProposalEvent(Answer(store, p)), n - 1);
      && Rounds(store, ProposalEvent(p), n) == Outcome(rest.final, head + rest.trace)
      && SendsTo(head, Planner.RefineChannelOf(p.agentType)) == 1
      && next.Keys == store.Keys
      && next[p.tripId].request == store[p.tripId].request
  {
    var channel := Planner.RefineChannelOf(p.agentType);
    var acts := Planner.ProposalActions(store, ProposalEvent(p), None);
    RefinementAnswered(store, p);
    Planner.ProposalStoreEffect(store, ProposalEvent(p));
    OneRefineSend(store, p);
    SendsToOne(Suppliers.ProposalEventSend(Answer(store, p)), channel);
    SendsToAppend(acts, [Suppliers.ProposalEventSend(Answer(store, p))], channel);
  }

  /** A round adds one refine send to those of the rounds that follow it, and ends where they end. */
  lemma CountAfterStep(store: Planner.Store, p: TravelProposal, n: nat)
    requires p.agentType == Air || p.agentType == Train
    requires p.tripId in store
    requires Planner.OverBudget(p.estimatedCost, store[p.tripId].request.budget)
    requires n >= 1
    ensures Rounds(store, ProposalEvent(p), n).final ==
            Rounds(Planner.ProposalStore(store, ProposalEvent(p)), ProposalEvent(Answer(store, p)), n - 1).final
    ensures var channel := Planner.RefineChannelOf(p.agentType);
      SendsTo(Rounds(store, ProposalEvent(p), n).trace, channel) ==
      1 + SendsTo(Rounds(Planner.ProposalStore(store, ProposalEvent(p)),
                         ProposalEvent(Answer(store, p)), n - 1).trace, channel)
  {
    Step(store, p, n);
    var rest := Rounds(Planner.ProposalStore(store, ProposalEvent(p)), ProposalEvent(Answer(store, p)), n - 1);
    SendsToAppend(Planner.ProposalActions(store, ProposalEvent(p), None) +
                  [Suppliers.ProposalEventSend(Answer(store, p))], rest.trace, Planner.RefineChannelOf(p.agentType));
  }

  /**
    When the refined quote is over the threshold too, the supplier's answer is
    again an over-budget proposal of a known trip, whose request is unchanged.
  */
  lemma StillOverBudget(store: Planner.Store, p: TravelProposal)
    requires p.agentType == Air || p.agentType == Train
    requires p.tripId in store
    requires Planner.OverBudget(p.estimatedCost, store[p.tripId].request.budget)
    requires Planner.OverBudget(RefinedCost(p.agentType), store[p.tripId].request.budget)
    ensures var next, q := Planner.ProposalStore(store, ProposalEvent(p)), Answer(store, p);
      && (q.agentType == Air || q.agentType == Train)
      && q.tripId in next
      && next[q.tripId].request == store[p.tripId].request
      && Planner.OverBudget(q.estimatedCost, next[q.tripId].request.budget)
      && Planner.OverBudget(RefinedCost(q.agentType), next[q.tripId].request.budget)
  {
    Planner.ProposalStoreEffect(store, ProposalEvent(p));
  }

  /**
    With the supplier's refined quote still above 80% of the budget, every
    reply draws another refinement: `n` replies mean `n + 1` refine sends to the
    same channel, and the trip keeps its request throughout.
  */
  lemma {:induction false} RefineLoopUnbounded(store: Planner.Store, p: TravelProposal, n: nat)
    requires p.agentType == Air || p.agentType == Train
    requires p.tripId in store
    requires Planner.OverBudget(p.estimatedCost, store[p.tripId].request.budget)
    requires Planner.OverBudget(RefinedCost(p.agentType), store[p.tripId].request.budget)
    ensures SendsTo(Rounds(store, ProposalEvent(p), n).trace, Planner.RefineChannelOf(p.agentType)) == n + 1
    ensures p.tripId in Rounds(store, ProposalEvent(p), n).final
    ensures Rounds(store, ProposalEvent(p), n).final[p.tripId].request == store[p.tripId].request
    decreases n
  {
    if n == 0 {
      LastRound(store, p);
    } else {
      StillOverBudget(store, p);
      RefineLoopUnbounded(Planner.ProposalStore(store, ProposalEvent(p)), Answer(store, p), n - 1);
      CountAfterStep(store, p, n);
    }
  }

  /**
    With the refined quote within 80% of the budget, an over-budget proposal
    draws exactly one refinement, and the trip ends up holding the supplier's
    refined proposal.
  */
  lemma RefineLoopStops(store: Planner.Store, p: TravelProposal, n: nat)
    requires p.agentType == Air || p.agentType == Train
    requires p.tripId in store
    requires Planner.OverBudget(p.estimatedCost, store[p.tripId].request.budget)
    requires !Planner.OverBudget(RefinedCost(p.agentType), store[p.tripId].request.budget)
    requires n >= 1
    ensures var outcome := Rounds(store, ProposalEvent(p), n);
      && SendsTo(outcome.trace, Planner.RefineChannelOf(p.agentType)) == 1
      && p.tripId in outcome.final
      && Lookup(outcome.final[p.tripId], p.agentType) == Some(Answer(store, p))
  {
    var channel := Planner.RefineChannelOf(p.agentType);
    Step(store, p, n);
    var next := Planner.ProposalStore(store, ProposalEvent(p));
    var q := Answer(store, p);
    var head := Planner.ProposalActions(store, ProposalEvent(p), None) + [Suppliers.ProposalEventSend(q)];
    Planner.RefinementIffOverBudget(next, q);
    Planner.ProposalStoreEffect(next, ProposalEvent(q));
    var tail := Planner.ProposalActions(next, ProposalEvent(q), None);
    assert tail == [Complete];
    assert Rounds(next, ProposalEvent(q), n - 1) == Outcome(Planner.ProposalStore(next, ProposalEvent(q)), tail);
    SendsToOne(Complete, channel);
    SendsToAppend(head, tail, channel);
  }

  /**
    A trip with a budget of 100 is asked to refine its Air quote forever: the
    refined 180.00 is still above 80.
  */
  lemma AirAtBudgetHundred(store: Planner.Store, request: FlightSearchRequest, n: nat)
    requires request.tripId in store
    requires store[request.tripId].request.budget == Decimal(100, 0)
    ensures SendsTo(Rounds(store, ProposalEvent(AirAgent.Search(request)), n).trace, "air.refine") == n + 1
  {
    RefineLoopUnbounded(store, AirAgent.Search(request), n);
  }

  /**
    The fan-out reaches the suppliers: each search channel is the one the
    supplier subscribes to, the Air and Train replies are proposals for the
    same trip that the orchestrator accepts, and every agent type's refine
    channel is the one its supplier listens on.
  */
  lemma ChannelsAgree(r: TravelRequest)
    ensures Planner.FanOutChannels ==
      [ AirAgent.SearchChannel, TrainAgent.SearchChannel, RoadTravelAgent.SearchChannel,
        AccommodationAgent.SearchChannel, RentalCarAgent.SearchChannel ]
    ensures Planner.RefineChannelOf(AgentType.Air) == AirAgent.RefineChannel
    ensures Planner.RefineChannelOf(AgentType.Train) == TrainAgent.RefineChannel
    ensures Planner.RefineChannelOf(AgentType.Road) == RoadTravelAgent.RefineChannel
    ensures Planner.RefineChannelOf(AgentType.Accommodation) == AccommodationAgent.RefineChannel
    ensures Planner.RefineChannelOf(AgentType.RentalCar) == RentalCarAgent.RefineChannel
    ensures forall i :: 0 <= i < 2 ==>
      var s := Planner.FanOut(r)[i];
      var reply := DeliverSearch(s.channel, s.message.event);
      && |reply| == 1
      && reply[0].channel == ProposalsChannel
      && Planner.DecodeProposal(reply[0].message.event).Some?
      && Planner.DecodeProposal(reply[0].message.event).value.tripId == r.tripId
  {
    Planner.FanOutPayloads(r);
  }
}
