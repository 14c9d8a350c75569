/**
  The Road supplier. Its handlers receive records directly (the connector has
  already decoded them), hand one canned proposal to the typed send to
  `travel.proposals`, and then acknowledge. Nothing is kept between calls.
*/
module RoadTravelAgent {
  import opened Wrappers
  import opened Messages
  import opened Bus
  import opened Suppliers

  const SearchChannel := "road.travel"
  const RefineChannel := "road.refine"

  const SearchOptions: seq<TravelOption> := [
    TravelOption("Express Bus", Cents(4500), "5h 30m"),
    TravelOption("Standard Bus", Cents(3500), "7h 15m")
  ]

  const RefinedOptions: seq<TravelOption> := [
    TravelOption("Budget Bus", Cents(2500), "8h 45m"),
    TravelOption("Rideshare", Cents(3000), "6h 30m")
  ]

  /** The proposal for a road search: the trip's id, tagged Road, two buses at 45.00 and 35.00. */
  function Search(request: RoadTravelRequest): (p: TravelProposal)
    ensures p.tripId == request.tripId && p.agentType == Road
    ensures Prices(p.options) == [45.0, 35.0]
    ensures PricedByFirstOption(p) && Value(p.estimatedCost) == 45.0
    ensures CheaperOptionListed(p)
  {
    var p := TravelProposal(request.tripId, Road, SearchOptions, Cents(4500));
    assert Value(p.options[1].price) < Value(p.estimatedCost);
    p
  }

  /** The proposal for a refinement: the refinement's trip id, tagged Road, at 25.00 and 30.00. */
  function Refine(refinement: RefinementRequest): (p: TravelProposal)
    ensures p.tripId == refinement.tripId && p.agentType == Road
    ensures Prices(p.options) == [25.0, 30.0]
    ensures PricedByFirstOption(p) && Value(p.estimatedCost) == 25.0
    ensures EstimateIsCheapest(p)
  {
    TravelProposal(refinement.tripId, Road, RefinedOptions, Cents(2500))
  }

  /**
    The `road.travel` handler: the proposal record is sent, then the message is
    acknowledged; a send that throws leaves it unacknowledged.
  */
  function OnSearch(request: RoadTravelRequest, failAt: Option<nat>): (acts: seq<Action>)
    ensures Complete in acts <==> AllSucceed(failAt, 1)
    ensures Complete in acts ==> acts == [ProposalRecordSend(Search(request)), Complete]
    ensures Complete !in acts ==> acts == []
  {
    Transact([ProposalRecordSend(Search(request))], failAt)
  }

  /** The `road.refine` handler: the same shape, for refinements. */
  function OnRefine(refinement: RefinementRequest, failAt: Option<nat>): (acts: seq<Action>)
    ensures Complete in acts <==> AllSucceed(failAt, 1)
    ensures Complete in acts ==> acts == [ProposalRecordSend(Refine(refinement)), Complete]
    ensures Complete !in acts ==> acts == []
  {
    Transact([ProposalRecordSend(Refine(refinement))], failAt)
  }

  /** A refined proposal always costs strictly less than a search proposal. */
  lemma RefineLowersCost(request: RoadTravelRequest, refinement: RefinementRequest)
    ensures Value(Refine(refinement).estimatedCost) < Value(Search(request).estimatedCost)
  {
  }

  /**
    Only the trip id of the input reaches the proposal: not the travel type,
    the route, the dates, nor the refinement's reason or feedback.
  */
  lemma DependsOnlyOnTrip(r1: RoadTravelRequest, r2: RoadTravelRequest,
                          f1: RefinementRequest, f2: RefinementRequest)
    requires r1.tripId == r2.tripId && f1.tripId == f2.tripId
    ensures Search(r1) == Search(r2) && Refine(f1) == Refine(f2)
  {
  }
}
