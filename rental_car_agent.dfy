/**
  The RentalCar supplier. Its handlers receive records directly (the connector has
  already decoded them), hand one canned proposal to the typed send to
  `travel.proposals`, and then acknowledge. Nothing is kept between calls.
*/
module RentalCarAgent {
  import opened Wrappers
  import opened Messages
  import opened Bus
  import opened Suppliers

  const SearchChannel := "rental.cars"
  const RefineChannel := "rentalcar.refine"

  const SearchOptions: seq<TravelOption> := [
    TravelOption("Economy Car", Cents(3500), "Compact, fuel efficient"),
    TravelOption("SUV", Cents(6500), "Spacious, all-terrain"),
    TravelOption("Luxury Sedan", Cents(9500), "Premium comfort")
  ]

  const RefinedOptions: seq<TravelOption> := [
    TravelOption("Budget Compact", Cents(2500), "Basic transportation"),
    TravelOption("Used Car Rental", Cents(2800), "Older model, reliable"),
    TravelOption("Peer-to-Peer", Cents(3000), "Local car sharing")
  ]

  /** The proposal for a rental search: the trip's id, tagged RentalCar,
      three cars at 35.00, 65.00 and 95.00. */
  function Search(request: RentalCarRequest): (p: TravelProposal)
    ensures p.tripId == request.tripId && p.agentType == RentalCar
    ensures Prices(p.options) == [35.0, 65.0, 95.0]
    ensures PricedByFirstOption(p) && Value(p.estimatedCost) == 35.0
    ensures EstimateIsCheapest(p)
  {
    TravelProposal(request.tripId, RentalCar, SearchOptions, Cents(3500))
  }

  /** The proposal for a refinement: the refinement's trip id, tagged RentalCar,
      at 25.00, 28.00 and 30.00. */
  function Refine(refinement: RefinementRequest): (p: TravelProposal)
    ensures p.tripId == refinement.tripId && p.agentType == RentalCar
    ensures Prices(p.options) == [25.0, 28.0, 30.0]
    ensures PricedByFirstOption(p) && Value(p.estimatedCost) == 25.0
    ensures EstimateIsCheapest(p)
  {
    TravelProposal(refinement.tripId, RentalCar, RefinedOptions, Cents(2500))
  }

  /**
    The `rental.cars` handler: the proposal record is sent, then the message is
    acknowledged; a send that throws leaves it unacknowledged.
  */
  function OnSearch(request: RentalCarRequest, failAt: Option<nat>): (acts: seq<Action>)
    ensures Complete in acts <==> AllSucceed(failAt, 1)
    ensures Complete in acts ==> acts == [ProposalRecordSend(Search(request)), Complete]
    ensures Complete !in acts ==> acts == []
  {
    Transact([ProposalRecordSend(Search(request))], failAt)
  }

  /** The `rentalcar.refine` handler: the same shape, for refinements. */
  function OnRefine(refinement: RefinementRequest, failAt: Option<nat>): (acts: seq<Action>)
    ensures Complete in acts <==> AllSucceed(failAt, 1)
    ensures Complete in acts ==> acts == [ProposalRecordSend(Refine(refinement)), Complete]
    ensures Complete !in acts ==> acts == []
  {
    Transact([ProposalRecordSend(Refine(refinement))], failAt)
  }

  /** A refined proposal always costs strictly less than a search proposal. */
  lemma RefineLowersCost(request: RentalCarRequest, refinement: RefinementRequest)
    ensures Value(Refine(refinement).estimatedCost) < Value(Search(request).estimatedCost)
  {
  }

  /**
    Only the trip id of the input reaches the proposal: not the location,
    the dates, the vehicle type, nor the refinement's reason or feedback.
  */
  lemma DependsOnlyOnTrip(r1: RentalCarRequest, r2: RentalCarRequest,
                          f1: RefinementRequest, f2: RefinementRequest)
    requires r1.tripId == r2.tripId && f1.tripId == f2.tripId
    ensures Search(r1) == Search(r2) && Refine(f1) == Refine(f2)
  {
  }
}
