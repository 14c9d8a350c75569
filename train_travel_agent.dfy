/**
  The Train supplier. Both handlers take CloudEvents, drop any event whose type
  string or data does not match, and publish one canned proposal as a
  `com.contoso.travel.TravelProposal` event. Nothing is kept between calls.
*/
module TrainTravelAgent {
  import opened Wrappers
  import opened Messages
  import opened Bus
  import opened Suppliers

  const SearchChannel := "train.travel"
  const RefineChannel := "train.refine"

  const SearchOptions: seq<TravelOption> := [
    TravelOption("High-Speed Rail", Cents(18000), "3h 45m"),
    TravelOption("Regional Train", Cents(9500), "6h 20m")
  ]

  const RefinedOptions: seq<TravelOption> := [
    TravelOption("Economy Regional", Cents(6500), "7h 30m"),
    TravelOption("Sleeper Train", Cents(8500), "8h 45m overnight")
  ]

  /** The proposal for a train search: the trip's id, tagged Train, two trains at 180.00 and 95.00. */
  function Search(request: TrainSearchRequest): (p: TravelProposal)
    ensures p.tripId == request.tripId && p.agentType == Train
    ensures Prices(p.options) == [180.0, 95.0]
    ensures PricedByFirstOption(p) && Value(p.estimatedCost) == 180.0
    ensures CheaperOptionListed(p)
  {
    var p := TravelProposal(request.tripId, Train, SearchOptions, Cents(18000));
    assert Value(p.options[1].price) < Value(p.estimatedCost);
    p
  }

  /** The estimate quoted on every refinement. */
  const RefinedCost := Cents(6500)

  /**
    The proposal for a refinement: the refinement's trip id, tagged Train whatever
    agent type the refinement names, two trains at 65.00 and 85.00.
  */
  function Refine(refinement: RefinementRequest): (p: TravelProposal)
    ensures p.tripId == refinement.tripId && p.agentType == Train
    ensures Prices(p.options) == [65.0, 85.0]
    ensures PricedByFirstOption(p) && Value(p.estimatedCost) == 65.0
    ensures EstimateIsCheapest(p)
  {
    TravelProposal(refinement.tripId, Train, RefinedOptions, RefinedCost)
  }

  /**
    The `train.travel` handler: for a train-search event, one proposal event to
    `travel.proposals` about that trip, unless the send throws; otherwise nothing.
    The acknowledgement is left to the connector.
  */
  function OnSearch(ev: CloudEvent, failAt: Option<nat>): (acts: seq<Action>)
    ensures |acts| <= 1 && Complete !in acts
    ensures |acts| == 1 <==>
      ev.eventType == TrainSearchRequestType && ev.data.TrainSearchData? && AllSucceed(failAt, 1)
    ensures |acts| == 1 ==> acts[0] == ProposalEventSend(Search(ev.data.trainSearch))
  {
    if ev.eventType != TrainSearchRequestType then []
    else match ev.data
      case TrainSearchData(request) => Published([ProposalEventSend(Search(request))], failAt)
      case _ => []
  }

  /** The `train.refine` handler: the same shape, for refinement events. */
  function OnRefine(ev: CloudEvent, failAt: Option<nat>): (acts: seq<Action>)
    ensures |acts| <= 1 && Complete !in acts
    ensures |acts| == 1 <==>
      ev.eventType == RefinementRequestType && ev.data.RefinementData? && AllSucceed(failAt, 1)
    ensures |acts| == 1 ==> acts[0] == ProposalEventSend(Refine(ev.data.refinement))
  {
    if ev.eventType != RefinementRequestType then []
    else match ev.data
      case RefinementData(refinement) => Published([ProposalEventSend(Refine(refinement))], failAt)
      case _ => []
  }

  /** A refined proposal always costs strictly less than a search proposal. */
  lemma RefineLowersCost(request: TrainSearchRequest, refinement: RefinementRequest)
    ensures Value(Refine(refinement).estimatedCost) < Value(Search(request).estimatedCost)
  {
  }

  /** Only the trip id of the input reaches the proposal: not the route, dates, reason or feedback. */
  lemma DependsOnlyOnTrip(r1: TrainSearchRequest, r2: TrainSearchRequest,
                          f1: RefinementRequest, f2: RefinementRequest)
    requires r1.tripId == r2.tripId && f1.tripId == f2.tripId
    ensures Search(r1) == Search(r2) && Refine(f1) == Refine(f2)
  {
  }
}
