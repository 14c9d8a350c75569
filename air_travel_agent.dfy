/**
  The Air supplier. Both handlers take CloudEvents, drop any event whose type
  string or data does not match, and publish one canned proposal as a
  `com.contoso.travel.TravelProposal` event. Nothing is kept between calls.
*/
module AirTravelAgent {
  import opened Wrappers
  import opened Messages
  import opened Bus
  import opened Suppliers

  const SearchChannel := "air.travel"
  const RefineChannel := "air.refine"

  const SearchOptions: seq<TravelOption> := [
    TravelOption("Direct Flight", Cents(45000), "2h 30m"),
    TravelOption("Connecting Flight", Cents(32000), "4h 15m")
  ]

  const RefinedOptions: seq<TravelOption> := [
    TravelOption("Budget Airline", Cents(18000), "3h 15m"),
    TravelOption("Red-eye Flight", Cents(22000), "2h 45m")
  ]

  /** The proposal for a flight search: the trip's id, tagged Air, two flights at 450.00 and 320.00. */
  function Search(request: FlightSearchRequest): (p: TravelProposal)
    ensures p.tripId == request.tripId && p.agentType == Air
    ensures Prices(p.options) == [450.0, 320.0]
    ensures PricedByFirstOption(p) && Value(p.estimatedCost) == 450.0
    ensures CheaperOptionListed(p)
  {
    var p := TravelProposal(request.tripId, Air, SearchOptions, Cents(45000));
    assert Value(p.options[1].price) < Value(p.estimatedCost);
    p
  }

  /** The estimate quoted on every refinement. */
  const RefinedCost := Cents(18000)

  /**
    The proposal for a refinement: the refinement's trip id, tagged Air whatever
    agent type the refinement names, two flights at 180.00 and 220.00.
  */
  function Refine(refinement: RefinementRequest): (p: TravelProposal)
    ensures p.tripId == refinement.tripId && p.agentType == Air
    ensures Prices(p.options) == [180.0, 220.0]
    ensures PricedByFirstOption(p) && Value(p.estimatedCost) == 180.0
    ensures EstimateIsCheapest(p)
  {
    TravelProposal(refinement.tripId, Air, RefinedOptions, RefinedCost)
  }

  /**
    The `air.travel` handler: for a flight-search event, one proposal event to
    `travel.proposals` about that trip, unless the send throws; otherwise nothing.
    The acknowledgement is left to the connector.
  */
  function OnSearch(ev: CloudEvent, failAt: Option<nat>): (acts: seq<Action>)
    ensures |acts| <= 1 && Complete !in acts
    ensures |acts| == 1 <==>
      ev.eventType == FlightSearchRequestType && ev.data.FlightSearchData? && AllSucceed(failAt, 1)
    ensures |acts| == 1 ==> acts[0] == ProposalEventSend(Search(ev.data.flightSearch))
  {
    if ev.eventType != FlightSearchRequestType then []
    else match ev.data
      case FlightSearchData(request) => Published([ProposalEventSend(Search(request))], failAt)
      case _ => []
  }

  /** The `air.refine` handler: the same shape, for refinement events. */
  function OnRefine(ev: CloudEvent, failAt: Option<nat>): (acts: seq<Action>)
    ensures |acts| <= 1 && Complete !in acts
    ensures |acts| == 1 <==>
      ev.eventType == RefinementRequestType && ev.data.RefinementData? && AllSucceed(failAt, 1)
    ensures |acts| == 1 ==> acts[0] == ProposalEventSend(Refine(ev.data.refinement))
  {
    if ev.eventType != RefinementRequestType then []
    else match ev.data
      case RefinementData(refinement) => Published([ProposalEventSend(Refine(refinement))], failAt)
      case _ => []
  }

  /** A refined proposal always costs strictly less than a search proposal. */
  lemma RefineLowersCost(request: FlightSearchRequest, refinement: RefinementRequest)
    ensures Value(Refine(refinement).estimatedCost) < Value(Search(request).estimatedCost)
  {
  }

  /** Only the trip id of the input reaches the proposal: not the route, dates, reason or feedback. */
  lemma DependsOnlyOnTrip(r1: FlightSearchRequest, r2: FlightSearchRequest,
                          f1: RefinementRequest, f2: RefinementRequest)
    requires r1.tripId == r2.tripId && f1.tripId == f2.tripId
    ensures Search(r1) == Search(r2) && Refine(f1) == Refine(f2)
  {
  }
}
