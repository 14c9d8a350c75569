/**
  The trip orchestrator. It keeps one `TripState` per trip identifier, fans a
  trip request out to the five suppliers, files their proposals, and asks a
  supplier for a cheaper offer whenever a proposal costs more than 80% of the
  trip's budget.

  The decisions are pure functions over the abstract store (`Store`); the class
  at the end performs them on the shared map of `TripState` objects and is
  proved to do exactly what those functions say.
*/
module TravelPlannerService {
  import opened Wrappers
  import opened Messages
  import opened Bus
  import opened TripStates

  /** The trip-state map as values: trip identifier to the trip's state. */
  type Store = map<string, TripView>

  // ---------------------------------------------------------------------
  // Request fan-out
  // ---------------------------------------------------------------------

  /** The five mode channels, in the order the requests are sent. */
  const FanOutChannels: seq<string> :=
    ["air.travel", "train.travel", "road.travel", "accommodations", "rental.cars"]

  /** `cloudEvent.Type` check followed by `cloudEvent.Data as TravelRequest`. */
  function DecodeTravelRequest(ev: CloudEvent): (r: Option<TravelRequest>)
    ensures r.Some? <==> ev.eventType == TravelRequestType && ev.data.TravelRequestData?
    ensures r.Some? ==> ev.data == TravelRequestData(r.value)
  {
    if ev.eventType != TravelRequestType then None
    else if !ev.data.TravelRequestData? then None
    else Some(ev.data.travelRequest)
  }

  function FlightSearchEvent(r: TravelRequest): CloudEvent
  {
    CloudEvent(FlightSearchRequestType, r.tripId, FlightSearchData(
      FlightSearchRequest(r.tripId, r.origin, r.destination, r.dates.start, Some(r.dates.end), 1)))
  }

  function TrainSearchEvent(r: TravelRequest): CloudEvent
  {
    CloudEvent(TrainSearchRequestType, r.tripId, TrainSearchData(
      TrainSearchRequest(r.tripId, r.origin, r.destination, r.dates.start, Some(r.dates.end), 1)))
  }

  function RoadTravelEvent(r: TravelRequest): CloudEvent
  {
    CloudEvent(RoadTravelRequestType, r.tripId, RoadTravelData(
      RoadTravelRequest(r.tripId, r.origin, r.destination, r.dates.start, Some(r.dates.end), Bus)))
  }

  function AccommodationEvent(r: TravelRequest): CloudEvent
  {
    CloudEvent(AccommodationRequestType, r.tripId, AccommodationData(
      AccommodationRequest(r.tripId, r.destination, r.dates.start, r.dates.end, 1,
                           DefaultAccommodationPreferences)))
  }

  function RentalCarEvent(r: TravelRequest): CloudEvent
  {
    CloudEvent(RentalCarRequestType, r.tripId, RentalCarData(
      RentalCarRequest(r.tripId, r.destination, r.dates.start, r.dates.end, Economy)))
  }

  /** The trip identifier inside a mode request, if the payload is one. */
  function ModeRequestTripId(d: Payload): Option<string>
  {
    match d
    case FlightSearchData(f) => Some(f.tripId)
    case TrainSearchData(t) => Some(t.tripId)
    case RoadTravelData(r) => Some(r.tripId)
    case AccommodationData(a) => Some(a.tripId)
    case RentalCarData(c) => Some(c.tripId)
    case _ => None
  }

  /**
    The five sends of the fan-out: one per mode channel, in order, each with the
    trip identifier as subject and as the payload's trip identifier.
  */
  function FanOut(r: TravelRequest): (sends: seq<Action>)
    ensures |sends| == 5 && AllSends(sends)
    ensures forall i :: 0 <= i < 5 ==>
      && sends[i].channel == FanOutChannels[i]
      && sends[i].message.Event?
      && sends[i].message.event.subject == r.tripId
      && ModeRequestTripId(sends[i].message.event.data) == Some(r.tripId)
  {
    [ Send("air.travel", Event(FlightSearchEvent(r))),
      Send("train.travel", Event(TrainSearchEvent(r))),
      Send("road.travel", Event(RoadTravelEvent(r))),
      Send("accommodations", Event(AccommodationEvent(r))),
      Send("rental.cars", Event(RentalCarEvent(r))) ]
  }

  /** The payload each mode request is given, field by field. */
  lemma FanOutPayloads(r: TravelRequest)
    ensures var sends := FanOut(r);
      && sends[0].message.event.data.FlightSearchData?
      && sends[1].message.event.data.TrainSearchData?
      && sends[2].message.event.data.RoadTravelData?
      && sends[3].message.event.data.AccommodationData?
      && sends[4].message.event.data.RentalCarData?
    // flight and train: the route, both dates and one passenger
    ensures var f := FanOut(r)[0].message.event.data.flightSearch;
      f.origin == r.origin && f.destination == r.destination &&
      f.departDate == r.dates.start && f.returnDate == Some(r.dates.end) && f.passengers == 1
    ensures var t := FanOut(r)[1].message.event.data.trainSearch;
      t.origin == r.origin && t.destination == r.destination &&
      t.departDate == r.dates.start && t.returnDate == Some(r.dates.end) && t.passengers == 1
    // road: the route, both dates, by bus
    ensures var b := FanOut(r)[2].message.event.data.roadTravel;
      b.origin == r.origin && b.destination == r.destination &&
      b.departDate == r.dates.start && b.returnDate == Some(r.dates.end) && b.travelType == Bus
    // accommodation: at the destination, both dates, one guest, default preferences
    ensures var a := FanOut(r)[3].message.event.data.accommodation;
      a.location == r.destination && a.checkIn == r.dates.start && a.checkOut == r.dates.end &&
      a.guests == 1 && a.preferences == DefaultAccommodationPreferences
    // rental car: at the destination, both dates, economy
    ensures var c := FanOut(r)[4].message.event.data.rentalCar;
      c.location == r.destination && c.pickupDate == r.dates.start &&
      c.returnDate == r.dates.end && c.vehicleType == Economy
  {
  }

  /**
    The store after a `travel.requests` event: a decoded request creates, or
    overwrites, the entry for its trip with a fresh state; nothing else changes.
  */
  function RequestStore(store: Store, ev: CloudEvent): Store
  {
    match DecodeTravelRequest(ev)
    case None => store
    case Some(r) => store[r.tripId := Fresh(r)]
  }

  lemma RequestStoreEffect(store: Store, ev: CloudEvent)
    ensures DecodeTravelRequest(ev).None? ==> RequestStore(store, ev) == store
    ensures DecodeTravelRequest(ev).Some? ==>
      var r, next := DecodeTravelRequest(ev).value, RequestStore(store, ev);
      && next.Keys == store.Keys + {r.tripId}
      && next[r.tripId] == Fresh(r)
      && forall id :: id in store && id != r.tripId ==> next[id] == store[id]
  {
  }

  /**
    What the `travel.requests` handler does on the bus: nothing for an event it
    does not decode; otherwise the five fan-out sends in order, then the
    acknowledgement, which is given exactly when all five sends succeed.
  */
  function RequestActions(ev: CloudEvent, failAt: Option<nat>): seq<Action>
  {
    match DecodeTravelRequest(ev)
    case None => []
    case Some(r) => Transact(FanOut(r), failAt)
  }

  /**
    The request is acknowledged exactly when it was decoded and all five sends
    succeeded, once, and only after the fifth send.
  */
  lemma RequestAcknowledgement(ev: CloudEvent, failAt: Option<nat>)
    ensures DecodeTravelRequest(ev).None? ==> RequestActions(ev, failAt) == []
    ensures DecodeTravelRequest(ev).Some? && AllSucceed(failAt, 5) ==>
      RequestActions(ev, failAt) == FanOut(DecodeTravelRequest(ev).value) + [Complete]
    ensures DecodeTravelRequest(ev).Some? && !AllSucceed(failAt, 5) ==>
      RequestActions(ev, failAt) == FanOut(DecodeTravelRequest(ev).value)[..failAt.value]
    ensures var acts := RequestActions(ev, failAt);
      && (Complete in acts <==> DecodeTravelRequest(ev).Some? && AllSucceed(failAt, 5))
      && (Complete in acts ==> |acts| == 6 && acts[5] == Complete && Complete !in acts[..5])
  {
  }

  /** Redelivering a request leaves the same single entry for its trip: the state is reset, not duplicated. */
  lemma RequestRedelivery(store: Store, ev: CloudEvent)
    ensures RequestStore(RequestStore(store, ev), ev) == RequestStore(store, ev)
    ensures |RequestStore(RequestStore(store, ev), ev).Keys| == |RequestStore(store, ev).Keys|
  {
  }

  // ---------------------------------------------------------------------
  // Proposal aggregation and refinement
  // ---------------------------------------------------------------------

  /** `cloudEvent.Type` check followed by `cloudEvent.Data as TravelProposal`. */
  function DecodeProposal(ev: CloudEvent): (p: Option<TravelProposal>)
    ensures p.Some? <==> ev.eventType == TravelProposalType && ev.data.ProposalData?
    ensures p.Some? ==> ev.data == ProposalData(p.value)
  {
    if ev.eventType != TravelProposalType then None
    else if !ev.data.ProposalData? then None
    else Some(ev.data.proposal)
  }

  /** `EstimatedCost > Budget * 0.8m`, on exact decimal values. */
  predicate OverBudget(cost: Decimal, budget: Decimal)
  {
    Value(cost) > Value(budget) * 0.8
  }

  /** The cost is over budget exactly when it is more than four fifths of the budget. */
  lemma OverBudgetIsFourFifths(cost: Decimal, budget: Decimal)
    ensures OverBudget(cost, budget) <==> 5.0 * Value(cost) > 4.0 * Value(budget)
  {
  }

  /** On amounts written in hundredths, the test is `5 * cost > 4 * budget` on whole numbers. */
  lemma OverBudgetInCents(cost: int, budget: int)
    ensures OverBudget(Cents(cost), Cents(budget)) <==> 5 * cost > 4 * budget
  {
  }

  const FeedbackPrefix := "Options too expensive, max budget: "

  /**
    A refinement request exactly when the proposal is over 80% of the budget,
    addressed to the proposal's trip and agent, with reason "budget" and the
    budget in the feedback text.
  */
  function GenerateRefinementFeedback(request: TravelRequest, proposal: TravelProposal)
    : (r: Option<RefinementRequest>)
    ensures r.Some? <==> OverBudget(proposal.estimatedCost, request.budget)
    ensures r.Some? ==>
      && r.value.tripId == proposal.tripId
      && r.value.agentType == proposal.agentType
      && r.value.reason == "budget"
      && r.value.feedback == FeedbackPrefix + DecimalText(request.budget)
  {
    if OverBudget(proposal.estimatedCost, request.budget) then
      Some(RefinementRequest(proposal.tripId, proposal.agentType, "budget",
                             FeedbackPrefix + DecimalText(request.budget)))
    else None
  }

  /** The cost at exactly 80% of the budget does not trigger a refinement. */
  lemma ThresholdIsStrict(request: TravelRequest, proposal: TravelProposal)
    requires Value(proposal.estimatedCost) == Value(request.budget) * 0.8
    ensures GenerateRefinementFeedback(request, proposal) == None
  {
  }

  /** One cent above 80% of the budget does trigger it, with the budget in the feedback text. */
  lemma CentAboveThresholdTriggers(request: TravelRequest, proposal: TravelProposal)
    requires Value(proposal.estimatedCost) == Value(request.budget) * 0.8 + 0.01
    ensures GenerateRefinementFeedback(request, proposal).Some?
    ensures GenerateRefinementFeedback(request, proposal).value.feedback ==
            FeedbackPrefix + DecimalText(request.budget)
  {
  }

  /** `AgentType.ToString()`: the member's name, starting with a capital. */
  function AgentName(t: AgentType): (name: string)
    ensures |name| > 0 && 'A' <= name[0] <= 'Z'
  {
    match t
    case Air => "Air"
    case Train => "Train"
    case Road => "Road"
    case Accommodation => "Accommodation"
    case RentalCar => "RentalCar"
  }

  function LowerChar(c: char): (l: char)
    ensures !('A' <= l <= 'Z')
    ensures 'a' <= l <= 'z' ==> 'A' <= c <= 'Z' || c == l
  {
    if 'A' <= c <= 'Z' then (c as int + 32) as char else c
  }

  /** `string.ToLower()` on ASCII letters. */
  function Lower(s: string): (r: string)
    ensures |r| == |s|
    ensures forall i :: 0 <= i < |s| ==> r[i] == LowerChar(s[i])
  {
    seq(|s|, i requires 0 <= i < |s| => LowerChar(s[i]))
  }

  /** The `switch` on the lower-cased agent name; any other name gives null. */
  function RefineName(name: string): (channel: Option<string>)
    ensures channel.Some? <==>
      name == "air" || name == "train" || name == "road" ||
      name == "accommodation" || name == "rentalcar"
  {
    if name == "air" then Some("air.refine")
    else if name == "train" then Some("train.refine")
    else if name == "road" then Some("road.refine")
    else if name == "accommodation" then Some("accommodation.refine")
    else if name == "rentalcar" then Some("rentalcar.refine")
    else None
  }

  /** The refine channel the handler picks for a proposal of agent type `t`: there always is one. */
  function RefineChannel(t: AgentType): (channel: Option<string>)
    ensures channel.Some?
  {
    RefineName(Lower(AgentName(t)))
  }

  /** The refine-channel table, stated per agent type. */
  function RefineChannelOf(t: AgentType): string
  {
    match t
    case Air => "air.refine"
    case Train => "train.refine"
    case Road => "road.refine"
    case Accommodation => "accommodation.refine"
    case RentalCar => "rentalcar.refine"
  }

  /** The switch reaches a channel for every agent type, and it is the one in the table. */
  lemma RefineChannelTotal(t: AgentType)
    ensures RefineChannel(t) == Some(RefineChannelOf(t))
  {
  }

  /** Different agent types have different names. */
  lemma AgentNamesDistinct(t1: AgentType, t2: AgentType)
    requires t1 != t2
    ensures AgentName(t1) != AgentName(t2)
  {
  }

  /** Different agent types are never sent to the same refine channel. */
  lemma RefineChannelsDistinct(t1: AgentType, t2: AgentType)
    requires t1 != t2
    ensures RefineChannel(t1) != RefineChannel(t2)
  {
    RefineChannelTotal(t1);
    RefineChannelTotal(t2);
  }

  /** The refinement event for a trip request and an over-budget proposal. */
  function RefinementEvent(request: TravelRequest, p: TravelProposal): CloudEvent
    requires OverBudget(p.estimatedCost, request.budget)
  {
    CloudEvent(RefinementRequestType, p.tripId,
               RefinementData(GenerateRefinementFeedback(request, p).value))
  }

  /**
    The refine sends for a proposal of a known trip: one, to the agent's refine
    channel, exactly when the proposal is over budget; otherwise none.
  */
  function RefineSends(request: TravelRequest, p: TravelProposal): (sends: seq<Action>)
    ensures AllSends(sends) && |sends| <= 1
    ensures |sends| == 1 <==> OverBudget(p.estimatedCost, request.budget)
    ensures |sends| == 1 ==>
      sends[0] == Send(RefineChannelOf(p.agentType), Event(RefinementEvent(request, p)))
  {
    match GenerateRefinementFeedback(request, p)
    case None => []
    case Some(feedback) =>
      [Send(RefineChannelOf(p.agentType),
            Event(CloudEvent(RefinementRequestType, p.tripId, RefinementData(feedback))))]
  }

  /**
    The store after a `travel.proposals` event: never a new trip, never a changed
    request; a decoded proposal of a known trip is filed under its agent type.
  */
  function ProposalStore(store: Store, ev: CloudEvent): Store
  {
    match DecodeProposal(ev)
    case None => store
    case Some(p) =>
      if p.tripId in store then store[p.tripId := WithProposal(store[p.tripId], p)] else store
  }

  lemma ProposalStoreEffect(store: Store, ev: CloudEvent)
    ensures var next := ProposalStore(store, ev);
      && next.Keys == store.Keys
      && forall id :: id in store ==> next[id].request == store[id].request
    ensures DecodeProposal(ev).None? ==> ProposalStore(store, ev) == store
    ensures DecodeProposal(ev).Some? ==>
      var p, next := DecodeProposal(ev).value, ProposalStore(store, ev);
      && (p.tripId !in store ==> next == store)
      && (p.tripId in store ==>
            && Lookup(next[p.tripId], p.agentType) == Some(p)
            && (forall t :: t != p.agentType ==>
                  Lookup(next[p.tripId], t) == Lookup(store[p.tripId], t))
            && forall id :: id in store && id != p.tripId ==> next[id] == store[id])
  {
  }

  /**
    What the `travel.proposals` handler does on the bus: nothing for an event it
    does not decode; only the acknowledgement for an unknown trip; otherwise at
    most one refine send, then the acknowledgement unless that send throws.
  */
  function ProposalActions(store: Store, ev: CloudEvent, failAt: Option<nat>): seq<Action>
  {
    match DecodeProposal(ev)
    case None => []
    case Some(p) =>
      if p.tripId in store then Transact(RefineSends(store[p.tripId].request, p), failAt)
      else [Complete]
  }

  lemma ProposalAcknowledgement(store: Store, ev: CloudEvent, failAt: Option<nat>)
    ensures DecodeProposal(ev).None? ==> ProposalActions(store, ev, failAt) == []
    ensures DecodeProposal(ev).Some? && DecodeProposal(ev).value.tripId !in store ==>
      ProposalActions(store, ev, failAt) == [Complete]
    ensures DecodeProposal(ev).Some? && DecodeProposal(ev).value.tripId in store ==>
      var p := DecodeProposal(ev).value;
      var sends := RefineSends(store[p.tripId].request, p);
      var acts := ProposalActions(store, ev, failAt);
      && (Complete in acts <==> AllSucceed(failAt, |sends|))
      && (Complete in acts ==> acts == sends + [Complete])
      && (Complete !in acts ==> acts == [])
    ensures |ProposalActions(store, ev, failAt)| <= 2
  {
  }

  /**
    For a proposal of a known trip whose send succeeds: a refinement is sent
    iff the proposal is over budget, to the agent's own refine channel, before
    the acknowledgement.
  */
  lemma RefinementIffOverBudget(store: Store, p: TravelProposal)
    requires p.tripId in store
    ensures var acts := ProposalActions(store, ProposalEvent(p), None);
      && (OverBudget(p.estimatedCost, store[p.tripId].request.budget) ==>
            acts == [Send(RefineChannelOf(p.agentType),
                          Event(RefinementEvent(store[p.tripId].request, p))), Complete])
      && (!OverBudget(p.estimatedCost, store[p.tripId].request.budget) ==> acts == [Complete])
  {
  }

  /**
    Proposals for different (trip, agent type) pairs may be filed in either
    order with the same result: no update is lost.
  */
  lemma {:induction false} ProposalsCommute(store: Store, e1: CloudEvent, e2: CloudEvent)
    requires DecodeProposal(e1).Some? && DecodeProposal(e2).Some?
    requires DecodeProposal(e1).value.tripId != DecodeProposal(e2).value.tripId ||
             DecodeProposal(e1).value.agentType != DecodeProposal(e2).value.agentType
    ensures ProposalStore(ProposalStore(store, e1), e2) == ProposalStore(ProposalStore(store, e2), e1)
  {
    var p1, p2 := DecodeProposal(e1).value, DecodeProposal(e2).value;
    if p1.tripId == p2.tripId && p1.tripId in store {
      DifferentAgentsCommute(store[p1.tripId], p1, p2);
    }
  }

  /** Of two proposals for the same trip and agent type, the one filed last is kept. */
  lemma LastAppliedWins(store: Store, e1: CloudEvent, e2: CloudEvent)
    requires DecodeProposal(e1).Some? && DecodeProposal(e2).Some?
    requires DecodeProposal(e1).value.tripId == DecodeProposal(e2).value.tripId
    requires DecodeProposal(e2).value.tripId in store
    requires DecodeProposal(e1).value.agentType == DecodeProposal(e2).value.agentType
    ensures var p2 := DecodeProposal(e2).value;
      Lookup(ProposalStore(ProposalStore(store, e1), e2)[p2.tripId], p2.agentType) == Some(p2)
  {
  }

  // ---------------------------------------------------------------------
  // The service: the shared trip-state map and the two handlers
  // ---------------------------------------------------------------------

  class TravelPlannerService {
    /** `_tripStates`; each value is a distinct `TripState` object. */
    var tripStates: map<string, TripState>
    /** Everything sent and acknowledged so far, in order. */
    ghost var log: seq<Action>
    /** The `TripState` objects the map refers to. */
    ghost var Repr: set<TripState>

    ghost predicate Valid()
      reads this`tripStates, this`Repr, Repr
    {
      && (forall id :: id in tripStates ==> tripStates[id] in Repr && tripStates[id].Valid())
      && (forall a, b :: a in tripStates && b in tripStates && a != b ==>
            tripStates[a] != tripStates[b])
    }

    /** The trip-state map as values. */
    ghost function Trips(): Store
      reads this`tripStates, this`Repr, Repr
      requires Valid()
    {
      map id | id in tripStates :: tripStates[id].View()
    }

    constructor ()
      ensures Valid() && fresh(Repr)
      ensures Trips() == map[] && log == []
    {
      tripStates := map[];
      log := [];
      Repr := {};
    }

    /** `await agentConnector.SendAsync(channel, event)`, the `index`-th send of this handler run. */
    method Publish(channel: string, event: CloudEvent, index: nat, failAt: Option<nat>)
      returns (ok: bool)
      modifies this`log
      ensures ok == (failAt != Some(index))
      ensures log == if ok then old(log) + [Send(channel, Event(event))] else old(log)
    {
      ok := failAt != Some(index);
      if ok {
        log := log + [Send(channel, Event(event))];
      }
    }

    /** `_tripStates[request.TripId] = new TripState(request)`. */
    method PutFreshState(request: TravelRequest)
      requires Valid()
      modifies this`tripStates, this`Repr
      ensures Valid() && fresh(Repr - old(Repr))
      ensures Trips() == old(Trips())[request.tripId := Fresh(request)]
    {
      var state := new TripState(request);
      tripStates := tripStates[request.tripId := state];
      Repr := Repr + {state};
      assert Valid();
      forall id | id in Trips()
        ensures Trips()[id] == old(Trips())[request.tripId := Fresh(request)][id]
      {
      }
    }

    /** The `travel.requests` handler. */
    method HandleTravelRequest(ev: CloudEvent, failAt: Option<nat>)
      requires Valid()
      modifies this
      ensures Valid() && fresh(Repr - old(Repr))
      ensures Trips() == RequestStore(old(Trips()), ev)
      ensures log == old(log) + RequestActions(ev, failAt)
    {
      var decoded := DecodeTravelRequest(ev);
      if decoded.None? {
        return;
      }
      var request := decoded.value;
      PutFreshState(request);
      assert Trips() == RequestStore(old(Trips()), ev);
      ghost var trips := Trips();
      FanOutAndAcknowledge(request, failAt);
      assert Trips() == trips;
    }

    /** The five sends of the fan-out, then the acknowledgement unless one of them throws. */
    method FanOutAndAcknowledge(request: TravelRequest, failAt: Option<nat>)
      modifies this`log
      ensures log == old(log) + Transact(FanOut(request), failAt)
    {
      TransactIsPublishedThenComplete(FanOut(request), failAt);
      var ok := PublishFanOut(request, failAt);
      if ok {
        log := log + [Complete];
      }
    }

    /** The five awaited sends of the fan-out, in order; `ok` when none throws. */
    method PublishFanOut(request: TravelRequest, failAt: Option<nat>) returns (ok: bool)
      modifies this`log
      ensures ok == AllSucceed(failAt, 5)
      ensures log == old(log) + Published(FanOut(request), failAt)
    {
      ghost var sends := FanOut(request);
      ok := Publish("air.travel", FlightSearchEvent(request), 0, failAt);
      if !ok {
        return;
      }
      assert log == old(log) + sends[..1];
      ok := Publish("train.travel", TrainSearchEvent(request), 1, failAt);
      if !ok {
        return;
      }
      assert log == old(log) + sends[..2];
      ok := Publish("road.travel", RoadTravelEvent(request), 2, failAt);
      if !ok {
        return;
      }
      assert log == old(log) + sends[..3];
      ok := Publish("accommodations", AccommodationEvent(request), 3, failAt);
      if !ok {
        return;
      }
      assert log == old(log) + sends[..4];
      ok := Publish("rental.cars", RentalCarEvent(request), 4, failAt);
      if !ok {
        return;
      }
      assert log == old(log) + sends;
    }

    /** `state.AddProposal(proposal)` on the state of a known trip; gives back the trip's request. */
    method FileProposal(proposal: TravelProposal) returns (request: TravelRequest)
      requires Valid() && proposal.tripId in tripStates
      modifies Repr
      ensures Valid()
      ensures old(Trips())[proposal.tripId].request == request
      ensures Trips() == old(Trips())[proposal.tripId :=
                           WithProposal(old(Trips())[proposal.tripId], proposal)]
    {
      var state := tripStates[proposal.tripId];
      state.AddProposal(proposal);
      request := state.request;
      forall id | id in Trips()
        ensures Trips()[id] == old(Trips())[proposal.tripId :=
                                 WithProposal(old(Trips())[proposal.tripId], proposal)][id]
      {
      }
    }

    /** The refinement decision and its send, if any; `ok` unless the send throws. */
    method PublishRefinement(request: TravelRequest, proposal: TravelProposal, failAt: Option<nat>)
      returns (ok: bool)
      modifies this`log
      ensures ok == AllSucceed(failAt, |RefineSends(request, proposal)|)
      ensures log == old(log) + Published(RefineSends(request, proposal), failAt)
    {
      ok := true;
      RefineChannelTotal(proposal.agentType);
      var feedback := GenerateRefinementFeedback(request, proposal);
      if feedback.Some? {
        var refineName := RefineChannel(proposal.agentType);
        if refineName.Some? {
          ok := Publish(refineName.value,
                        CloudEvent(RefinementRequestType, proposal.tripId,
                                   RefinementData(feedback.value)), 0, failAt);
        }
      }
    }

    /** The refinement decision, its send if any, and the acknowledgement unless the send throws. */
    method RefineAndAcknowledge(request: TravelRequest, proposal: TravelProposal, failAt: Option<nat>)
      modifies this`log
      ensures log == old(log) + Transact(RefineSends(request, proposal), failAt)
    {
      TransactIsPublishedThenComplete(RefineSends(request, proposal), failAt);
      var ok := PublishRefinement(request, proposal, failAt);
      if ok {
        log := log + [Complete];
      }
    }

    /** The `travel.proposals` handler. */
    method HandleProposal(ev: CloudEvent, failAt: Option<nat>)
      requires Valid()
      modifies this`log, Repr
      ensures Valid() && Repr == old(Repr)
      ensures Trips() == ProposalStore(old(Trips()), ev)
      ensures log == old(log) + ProposalActions(old(Trips()), ev, failAt)
    {
      var decoded := DecodeProposal(ev);
      if decoded.None? {
        return;
      }
      var proposal := decoded.value;
      if proposal.tripId in tripStates {
        var request := FileProposal(proposal);
        ghost var after := Trips();
        RefineAndAcknowledge(request, proposal, failAt);
        assert Trips() == after;
      } else {
        log := log + [Complete];
      }
    }
  }
}
