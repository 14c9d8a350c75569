/**
  The Accommodation supplier. Its handlers receive records directly (the connector has
  already decoded them), hand one canned proposal to the typed send to
  `travel.proposals`, and then acknowledge. Nothing is kept between calls.
*/
module AccommodationAgent {
  import opened Wrappers
  import opened Messages
  import opened Bus
  import opened Suppliers

  const SearchChannel := "accommodations"
  const RefineChannel := "accommodation.refine"

  const SearchOptions: seq<TravelOption> := [
    TravelOption("Downtown Hotel", Cents(12000), "4-star, city center"),
    TravelOption("Business Hotel", Cents(8900), "3-star, near airport"),
    TravelOption("Vacation Rental", Cents(7500), "2-bedroom apartment")
  ]

  const RefinedOptions: seq<TravelOption> := [
    TravelOption("Budget Hostel", Cents(3500), "Shared room, basic amenities"),
    TravelOption("Motel", Cents(5500), "Private room, highway location"),
    TravelOption("Airbnb Studio", Cents(6500), "Private studio, kitchen")
  ]

  /** The proposal for an accommodation search: the trip's id, tagged Accommodation,
      three stays at 120.00, 89.00 and 75.00. */
  function Search(request: AccommodationRequest): (p: TravelProposal)
    ensures p.tripId == request.tripId && p.agentType == Accommodation
    ensures Prices(p.options) == [120.0, 89.0, 75.0]
    ensures PricedByFirstOption(p) && Value(p.estimatedCost) == 120.0
    ensures CheaperOptionListed(p)
  {
    var p := TravelProposal(request.tripId, Accommodation, SearchOptions, Cents(12000));
    assert Value(p.options[1].price) < Value(p.estimatedCost);
    p
  }

  /** The proposal for a refinement: the refinement's trip id, tagged Accommodation,
      at 35.00, 55.00 and 65.00. */
  function Refine(refinement: RefinementRequest): (p: TravelProposal)
    ensures p.tripId == refinement.tripId && p.agentType == Accommodation
    ensures Prices(p.options) == [35.0, 55.0, 65.0]
    ensures PricedByFirstOption(p) && Value(p.estimatedCost) == 35.0
    ensures EstimateIsCheapest(p)
  {
    TravelProposal(refinement.tripId, Accommodation, RefinedOptions, Cents(3500))
  }

  /**
    The `accommodations` handler: the proposal record is sent, then the message is
    acknowledged; a send that throws leaves it unacknowledged.
  */
  function OnSearch(request: AccommodationRequest, failAt: Option<nat>): (acts: seq<Action>)
    ensures Complete in acts <==> AllSucceed(failAt, 1)
    ensures Complete in acts ==> acts == [ProposalRecordSend(Search(request)), Complete]
    ensures Complete !in acts ==> acts == []
  {
    Transact([ProposalRecordSend(Search(request))], failAt)
  }

  /** The `accommodation.refine` handler: the same shape, for refinements. */
  function OnRefine(refinement: RefinementRequest, failAt: Option<nat>): (acts: seq<Action>)
    ensures Complete in acts <==> AllSucceed(failAt, 1)
    ensures Complete in acts ==> acts == [ProposalRecordSend(Refine(refinement)), Complete]
    ensures Complete !in acts ==> acts == []
  {
    Transact([ProposalRecordSend(Refine(refinement))], failAt)
  }

  /** A refined proposal always costs strictly less than a search proposal. */
  lemma RefineLowersCost(request: AccommodationRequest, refinement: RefinementRequest)
    ensures Value(Refine(refinement).estimatedCost) < Value(Search(request).estimatedCost)
  {
  }

  /**
    Only the trip id of the input reaches the proposal: not the location,
    the dates, the guests, the preferences, nor the refinement's reason or feedback.
  */
  lemma DependsOnlyOnTrip(r1: AccommodationRequest, r2: AccommodationRequest,
                          f1: RefinementRequest, f2: RefinementRequest)
    requires r1.tripId == r2.tripId && f1.tripId == f2.tripId
    ensures Search(r1) == Search(r2) && Refine(f1) == Refine(f2)
  {
  }
}
