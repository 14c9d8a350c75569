/**
  What the five supplier agents have in common: every answer is a canned
  proposal priced by its first option, sent once to `travel.proposals`.
*/
module Suppliers {
  import opened Messages
  import opened Bus

  /** The prices of a list of options, as exact numbers, in catalogue order. */
  function Prices(options: seq<TravelOption>): (prices: seq<real>)
    ensures |prices| == |options|
    ensures forall i :: 0 <= i < |options| ==> prices[i] == Value(options[i].price)
  {
    seq(|options|, i requires 0 <= i < |options| => Value(options[i].price))
  }

  /** `EstimatedCost` is the price of the first option listed. */
  predicate PricedByFirstOption(p: TravelProposal)
  {
    |p.options| > 0 && p.estimatedCost == p.options[0].price
  }

  /** Some listed option is strictly cheaper than the estimate. */
  predicate CheaperOptionListed(p: TravelProposal)
  {
    exists i :: 0 <= i < |p.options| && Value(p.options[i].price) < Value(p.estimatedCost)
  }

  /** No listed option is cheaper than the estimate. */
  predicate EstimateIsCheapest(p: TravelProposal)
  {
    forall i :: 0 <= i < |p.options| ==> Value(p.estimatedCost) <= Value(p.options[i].price)
  }

  /** A proposal published as a CloudEvent (the Air and Train agents). */
  function ProposalEventSend(p: TravelProposal): (a: Action)
    ensures a.Send? && a.channel == ProposalsChannel && a.message.Event?
    ensures a.message.event.eventType == TravelProposalType
    ensures a.message.event.subject == p.tripId
    ensures a.message.event.data == ProposalData(p)
  {
    Send(ProposalsChannel, Event(ProposalEvent(p)))
  }

  /** A proposal handed to the typed send (the Road, Accommodation and RentalCar agents). */
  function ProposalRecordSend(p: TravelProposal): (a: Action)
    ensures a.Send? && a.channel == ProposalsChannel && a.message == Record(ProposalData(p))
  {
    Send(ProposalsChannel, Record(ProposalData(p)))
  }
}
