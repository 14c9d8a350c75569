# Travel planner orchestration, in Dafny

This project models the trip orchestrator of the C# travel-agents sample and proves
properties of it.

- **`TravelPlannerService` and its handlers.** The service keeps a shared map
  `_tripStates` from trip identifier to `TripState`, and it has two handlers.
  - The `travel.requests` handler creates a fresh state for a trip request. It fans the
    request out to five supplier channels in a fixed order. It acknowledges only after
    the fifth send.
  - The `travel.proposals` handler files each supplier's proposal under its agent type.
    When the proposal costs more than 80% of the trip's budget, it asks that supplier for
    a cheaper offer on the supplier's refine channel. Then it acknowledges.
- **The five suppliers.** Air, Train, Road, Accommodation and RentalCar each answer a
  search and a refinement with a canned proposal.

## Files and modules

- `wrappers.dfy` (`Wrappers`): `Option`.
- `messages.dfy` (`Messages`): the message records, and the C# `decimal` as
  `Decimal(mantissa, scale)`.
  - `Value` gives a decimal's exact number and `DecimalText` its `ToString()`. The
    feedback text shows the budget with its own scale, so `100` and `100.00` print
    differently; that is why the scale is kept.
  - It also holds the CloudEvent envelope (`type`, `subject`, data) and the event type
    strings.
- `bus.dfy` (`Bus`): what a handler does on the bus, as a trace of `Send(channel, message)`
  and `Complete` (for `context.CompleteAsync()`).
  - Which awaited `SendAsync` throws first is an input, `failAt`. A throw ends the
    handler.
  - `Published` gives the sends that happen. `Transact` gives the sends followed by the
    acknowledgement when none throws.
- `trip_state.dfy` (`TripStates`): the class `TripState` with its proposal dictionary,
  updated in place, and its value `TripView` with `Fresh`, `Lookup` and `WithProposal`.
- `travel_planner_service.dfy` (`TravelPlannerService`):
  - Pure functions give the new store and the trace for each event: `RequestStore`,
    `RequestActions`, `ProposalStore`, `ProposalActions`. What those functions promise
    is proved in lemmas.
  - The class `TravelPlannerService` holds the `tripStates` map of `TripState` objects
    and a ghost log. Its handler methods are proved to change the map and the log
    exactly as those functions say.
  - It also holds `GenerateRefinementFeedback` and the refine-channel `switch`.
- `suppliers.dfy` (`Suppliers`) and one file per supplier: each supplier's `Search` and
  `Refine` proposals and its two handlers.
  - Air and Train take and publish CloudEvents, checking the type string first.
  - Road, Accommodation and RentalCar have typed handlers: they receive records, send a
    record, then acknowledge.
- `negotiation.dfy` (`Negotiation`): the orchestrator and the CloudEvent suppliers wired
  together.
  - It proves that the orchestrator has no round counter: a supplier whose refined quote
    is still above 80% of the budget is asked to refine again on every reply.
  - At a budget of 100, Air's refined 180.00 is still over 80, so Air is asked again for
    every reply.
  - When the refined quote is within the threshold, the exchange stops after one
    refinement and the refined proposal is the one kept.

## Model

| member | source | states |
|---|---|---|
| Messages.ProposalEvent | travel/cs/Agents/AirTravelAgent.cs:46-53 | a proposal event has the TravelProposal type string, the trip id as subject and the proposal as data |
| Messages.DecimalText | travel/cs/Agents/TravelPlannerService.cs:202 | `decimal.ToString()`: a leading '-' exactly for a negative mantissa, the point `scale` digits from the end, no point at scale 0, no leading zero before the point unless it is the only digit there (the digits themselves in `Messages.DecimalTextValue`) |
| Messages.NatTextValue | travel/cs/Agents/TravelPlannerService.cs:202 | the digits printed for a whole number read back as that number |
| Messages.PointedTextValue | travel/cs/Agents/TravelPlannerService.cs:202 | with the point taken out, the digits printed for a scaled number read back as the number, with `scale` digits after the point and at least one before it |
| Messages.DecimalTextValue | travel/cs/Agents/TravelPlannerService.cs:202 | the budget's text spells its mantissa: after the optional '-', the digits read back as its magnitude, with exactly `scale` of them after the point |
| Messages.WholeBudgetText | travel/cs/Agents/TravelPlannerService.cs:202 | a budget of 100 prints as "100" |
| Messages.PriceText | travel/cs/Agents/TravelPlannerService.cs:202 | 450.00m prints as "450.00", trailing zeros kept |
| Messages.SmallNegativeText | travel/cs/Agents/TravelPlannerService.cs:202 | -0.05m prints as "-0.05" |
| Bus.Published | travel/cs/Agents/TravelPlannerService.cs:54-125 | awaited sends: all of them when none throws, otherwise exactly those before the one that throws |
| Bus.Transact | travel/cs/Agents/TravelPlannerService.cs:54-127 | the acknowledgement is present iff no send throws, and then it comes last, after every send; otherwise the trace is a strict prefix of the sends |
| Bus.TransactIsPublishedThenComplete | travel/cs/Agents/TravelPlannerService.cs:54-127 | a transactional handler is its published sends followed by `CompleteAsync` exactly when all succeed |
| TripStates.Fresh | travel/cs/Models/TripState.cs:6-8 | a new trip state holds its request and no proposal for any agent type |
| TripStates.Lookup | travel/cs/Models/TripState.cs:13-14 | `GetProposal` finds a proposal iff one is stored for the type, and it is of that type |
| TripStates.WithProposal | travel/cs/Models/TripState.cs:10-11 | after `AddProposal(p)` the lookup of p's type gives p, every other type is unchanged, the request is unchanged, and proposals stay keyed by their own type |
| TripStates.LastWriteWins | travel/cs/Models/TripState.cs:10-11 | adding two proposals of one type keeps the second |
| TripStates.DifferentAgentsCommute | travel/cs/Models/TripState.cs:10-11 | proposals of different types can be added in either order |
| TripStates.TripState.constructor | travel/cs/Models/TripState.cs:6-8 | the object's value is the fresh state of its request |
| TripStates.TripState.AddProposal | travel/cs/Models/TripState.cs:10-11 | the dictionary is overwritten in place: the new value is `WithProposal` of the old |
| TripStates.TripState.GetProposal | travel/cs/Models/TripState.cs:13-14 | the lookup on the object's value, always of the asked type |
| TravelPlannerService.DecodeTravelRequest | travel/cs/Agents/TravelPlannerService.cs:26-31 | a request is decoded iff the type string matches and the data is a TravelRequest |
| TravelPlannerService.FanOut | travel/cs/Agents/TravelPlannerService.cs:39-125 | exactly five sends, to air.travel, train.travel, road.travel, accommodations, rental.cars in that order, each with the trip id as subject and as payload trip id |
| TravelPlannerService.FanOutPayloads | travel/cs/Agents/TravelPlannerService.cs:45-123 | the field-by-field payload of each of the five mode requests |
| TravelPlannerService.RequestStoreEffect | travel/cs/Agents/TravelPlannerService.cs:36 | an undecoded event changes nothing; a request sets its trip's entry to a fresh state, overwriting any old one, and leaves every other trip alone |
| TravelPlannerService.RequestAcknowledgement | travel/cs/Agents/TravelPlannerService.cs:54-127 | an undecoded event has no effect on the bus; otherwise the five sends then one acknowledgement, present iff all five succeed, and then only after the fifth; after a failed send, only the sends before it |
| TravelPlannerService.RequestRedelivery | travel/cs/Agents/TravelPlannerService.cs:36 | redelivering a request leaves the same store and the same number of entries |
| TravelPlannerService.DecodeProposal | travel/cs/Agents/TravelPlannerService.cs:137-142 | a proposal is decoded iff the type string matches and the data is a TravelProposal |
| TravelPlannerService.OverBudgetIsFourFifths | travel/cs/Agents/TravelPlannerService.cs:196 | `EstimatedCost > Budget * 0.8m` on exact values holds exactly when the cost exceeds four fifths of the budget |
| TravelPlannerService.OverBudgetInCents | travel/cs/Agents/TravelPlannerService.cs:196 | on amounts in hundredths, the test is `5 * cost > 4 * budget` on whole numbers |
| TravelPlannerService.GenerateRefinementFeedback | travel/cs/Agents/TravelPlannerService.cs:191-206 | a refinement exactly when cost > 0.8 × budget, carrying the proposal's trip id and agent type, reason "budget" and the budget in the feedback |
| TravelPlannerService.ThresholdIsStrict | travel/cs/Agents/TravelPlannerService.cs:196 | a cost of exactly 0.8 × budget gives no refinement |
| TravelPlannerService.CentAboveThresholdTriggers | travel/cs/Agents/TravelPlannerService.cs:196-203 | a cost one cent above 0.8 × budget gives a refinement with the budget in its text |
| TravelPlannerService.AgentName | travel/cs/Agents/TravelPlannerService.cs:156 | `AgentType.ToString()`: a non-empty name starting with a capital |
| TravelPlannerService.AgentNamesDistinct | travel/cs/Agents/TravelPlannerService.cs:156 | different agent types have different names |
| TravelPlannerService.Lower | travel/cs/Agents/TravelPlannerService.cs:156 | `ToLower()`: same length, each letter lowered, no upper-case letter left |
| TravelPlannerService.RefineName | travel/cs/Agents/TravelPlannerService.cs:156-164 | the switch gives a channel iff the name is one of the five lower-case agent names |
| TravelPlannerService.RefineChannel | travel/cs/Agents/TravelPlannerService.cs:156-164 | the switch over the lower-cased type name, as the handler runs it: it yields a channel for every agent type |
| TravelPlannerService.RefineChannelTotal | travel/cs/Agents/TravelPlannerService.cs:156-164 | every agent type reaches a refine channel, and it is the one in the fixed table |
| TravelPlannerService.RefineChannelsDistinct | travel/cs/Agents/TravelPlannerService.cs:156-164 | different agent types go to different refine channels |
| TravelPlannerService.RefineSends | travel/cs/Agents/TravelPlannerService.cs:153-179 | at most one send; exactly one iff the proposal is over budget, and it is the refinement event on the agent's refine channel |
| TravelPlannerService.ProposalStoreEffect | travel/cs/Agents/TravelPlannerService.cs:148-150 | no trip is added or loses its request; an undecoded event or an unknown trip changes nothing; a known trip's proposal is filed under its type and nothing else changes |
| TravelPlannerService.ProposalAcknowledgement | travel/cs/Agents/TravelPlannerService.cs:137-183 | an undecoded event has no effect on the bus; an unknown trip is only acknowledged; a known one gets its refine send, if any, then the acknowledgement, unless the send throws; at most two actions |
| TravelPlannerService.RefinementIffOverBudget | travel/cs/Agents/TravelPlannerService.cs:150-183 | for a known trip, the refinement is sent iff over budget, to the agent's own channel, before the acknowledgement |
| TravelPlannerService.ProposalsCommute | travel/cs/Agents/TravelPlannerService.cs:150 | proposals for different (trip, agent type) pairs give the same store in either order: no update is lost |
| TravelPlannerService.LastAppliedWins | travel/cs/Agents/TravelPlannerService.cs:150 | of two proposals for the same trip and type, the later one is kept |
| TravelPlannerService.TravelPlannerService.constructor | travel/cs/Agents/TravelPlannerService.cs:11 | the map starts empty and nothing has been sent |
| TravelPlannerService.TravelPlannerService.Publish | travel/cs/Agents/TravelPlannerService.cs:54 | one awaited send: logged iff it does not throw |
| TravelPlannerService.TravelPlannerService.PutFreshState | travel/cs/Agents/TravelPlannerService.cs:36 | the map's value becomes the old one with the trip set to a fresh state |
| TravelPlannerService.TravelPlannerService.HandleTravelRequest | travel/cs/Agents/TravelPlannerService.cs:23-128 | the new map is `RequestStore` of the old and the log grows by `RequestActions` |
| TravelPlannerService.TravelPlannerService.FanOutAndAcknowledge | travel/cs/Agents/TravelPlannerService.cs:39-127 | the log grows by the fan-out transaction |
| TravelPlannerService.TravelPlannerService.PublishFanOut | travel/cs/Agents/TravelPlannerService.cs:39-125 | the five sends happen in order up to the first that throws; `ok` iff none throws |
| TravelPlannerService.TravelPlannerService.FileProposal | travel/cs/Agents/TravelPlannerService.cs:148-150 | the known trip's state is updated in place with the proposal; its request is returned |
| TravelPlannerService.TravelPlannerService.PublishRefinement | travel/cs/Agents/TravelPlannerService.cs:153-179 | the refine send, if any, happens unless it throws |
| TravelPlannerService.TravelPlannerService.RefineAndAcknowledge | travel/cs/Agents/TravelPlannerService.cs:152-183 | the log grows by the refinement transaction |
| TravelPlannerService.TravelPlannerService.HandleProposal | travel/cs/Agents/TravelPlannerService.cs:134-184 | the new map is `ProposalStore` of the old and the log grows by `ProposalActions` |
| Suppliers.ProposalEventSend | travel/cs/Agents/AirTravelAgent.cs:46-55 | a proposal event sent to travel.proposals with the trip id as subject |
| Suppliers.ProposalRecordSend | travel/cs/Agents/RoadTravelAgent.cs:37 | a proposal record handed to the typed send to travel.proposals |
| AirTravelAgent.Search | travel/cs/Agents/AirTravelAgent.cs:34-44 | trip id copied, tagged Air, prices 450 and 320, estimate the first price 450, and a cheaper option is listed |
| AirTravelAgent.Refine | travel/cs/Agents/AirTravelAgent.cs:74-84 | trip id copied, tagged Air whatever the refinement names, prices 180 and 220, estimate 180, the cheapest |
| AirTravelAgent.OnSearch | travel/cs/Agents/AirTravelAgent.cs:18-56 | one proposal event for the search iff type and data match and the send succeeds, otherwise nothing; never an acknowledgement |
| AirTravelAgent.OnRefine | travel/cs/Agents/AirTravelAgent.cs:60-96 | the same for refinement events |
| AirTravelAgent.RefineLowersCost | travel/cs/Agents/AirTravelAgent.cs:42-82 | the refined estimate is below the search estimate |
| AirTravelAgent.DependsOnlyOnTrip | travel/cs/Agents/AirTravelAgent.cs:34-84 | only the trip id of the input reaches the proposal |
| TrainTravelAgent.Search | travel/cs/Agents/TrainTravelAgent.cs:34-44 | trip id copied, tagged Train, prices 180 and 95, estimate 180, and a cheaper option is listed |
| TrainTravelAgent.Refine | travel/cs/Agents/TrainTravelAgent.cs:74-84 | trip id copied, tagged Train, prices 65 and 85, estimate 65, the cheapest |
| TrainTravelAgent.OnSearch | travel/cs/Agents/TrainTravelAgent.cs:18-56 | one proposal event iff type and data match and the send succeeds; never an acknowledgement |
| TrainTravelAgent.OnRefine | travel/cs/Agents/TrainTravelAgent.cs:60-96 | the same for refinement events |
| TrainTravelAgent.RefineLowersCost | travel/cs/Agents/TrainTravelAgent.cs:42-82 | the refined estimate is below the search estimate |
| TrainTravelAgent.DependsOnlyOnTrip | travel/cs/Agents/TrainTravelAgent.cs:34-84 | only the trip id of the input reaches the proposal |
| RoadTravelAgent.Search | travel/cs/Agents/RoadTravelAgent.cs:25-35 | trip id copied, tagged Road, prices 45 and 35, estimate 45, and a cheaper option is listed |
| RoadTravelAgent.Refine | travel/cs/Agents/RoadTravelAgent.cs:51-61 | trip id copied, tagged Road, prices 25 and 30, estimate 25, the cheapest |
| RoadTravelAgent.OnSearch | travel/cs/Agents/RoadTravelAgent.cs:16-39 | the proposal record is sent and then acknowledged; the acknowledgement is present iff the send succeeds, otherwise nothing happens |
| RoadTravelAgent.OnRefine | travel/cs/Agents/RoadTravelAgent.cs:42-65 | the same for refinements |
| RoadTravelAgent.RefineLowersCost | travel/cs/Agents/RoadTravelAgent.cs:33-59 | the refined estimate is below the search estimate |
| RoadTravelAgent.DependsOnlyOnTrip | travel/cs/Agents/RoadTravelAgent.cs:25-61 | travel type, route, dates and feedback do not reach the proposal |
| AccommodationAgent.Search | travel/cs/Agents/AccommodationAgent.cs:23-34 | trip id copied, tagged Accommodation, prices 120, 89 and 75, estimate 120, and a cheaper option is listed |
| AccommodationAgent.Refine | travel/cs/Agents/AccommodationAgent.cs:50-61 | trip id copied, tagged Accommodation, prices 35, 55 and 65, estimate 35, the cheapest |
| AccommodationAgent.OnSearch | travel/cs/Agents/AccommodationAgent.cs:16-38 | the proposal record is sent and then acknowledged; the acknowledgement is present iff the send succeeds |
| AccommodationAgent.OnRefine | travel/cs/Agents/AccommodationAgent.cs:41-65 | the same for refinements |
| AccommodationAgent.RefineLowersCost | travel/cs/Agents/AccommodationAgent.cs:32-59 | the refined estimate is below the search estimate |
| AccommodationAgent.DependsOnlyOnTrip | travel/cs/Agents/AccommodationAgent.cs:23-61 | preferences, guests and feedback do not reach the proposal |
| RentalCarAgent.Search | travel/cs/Agents/RentalCarAgent.cs:23-34 | trip id copied, tagged RentalCar, prices 35, 65 and 95, estimate 35, the cheapest |
| RentalCarAgent.Refine | travel/cs/Agents/RentalCarAgent.cs:50-61 | trip id copied, tagged RentalCar, prices 25, 28 and 30, estimate 25, the cheapest |
| RentalCarAgent.OnSearch | travel/cs/Agents/RentalCarAgent.cs:16-38 | the proposal record is sent and then acknowledged; the acknowledgement is present iff the send succeeds |
| RentalCarAgent.OnRefine | travel/cs/Agents/RentalCarAgent.cs:41-65 | the same for refinements |
| RentalCarAgent.RefineLowersCost | travel/cs/Agents/RentalCarAgent.cs:32-59 | the refined estimate is below the search estimate |
| RentalCarAgent.DependsOnlyOnTrip | travel/cs/Agents/RentalCarAgent.cs:23-61 | only the trip id of the input reaches the proposal |
| Negotiation.RefinementAnswered | travel/cs/Agents/TravelPlannerService.cs:153-178 | an over-budget Air or Train proposal draws a refine send and an acknowledgement, and the supplier on that channel answers with its refined proposal |
| Negotiation.Answer | travel/cs/Agents/TravelPlannerService.cs:153-178 | the supplier's answer is for the same trip and agent type and quotes the refined cost |
| Negotiation.OneRefineSend | travel/cs/Agents/TravelPlannerService.cs:156-178 | an over-budget proposal of a known trip gives exactly one send to its refine channel |
| Negotiation.LastRound | travel/cs/Agents/TravelPlannerService.cs:148-183 | with no reply followed, one refine send, and the trip stays with its request |
| Negotiation.Step | travel/cs/Agents/TravelPlannerService.cs:148-183 | one round is the handler's actions, the supplier's answer, then the rounds for that answer; no trip added, the request kept |
| Negotiation.CountAfterStep | travel/cs/Agents/TravelPlannerService.cs:148-183 | a round adds one refine send to the rounds that follow and ends where they end |
| Negotiation.StillOverBudget | travel/cs/Agents/TravelPlannerService.cs:196 | the budget check is applied again to the refined answer, against the same request |
| Negotiation.RefineLoopUnbounded | travel/cs/Agents/TravelPlannerService.cs:148-183 | with the refined quote still above 0.8 × budget, n replies give n + 1 refine sends: no round counter stops the loop |
| Negotiation.RefineLoopStops | travel/cs/Agents/TravelPlannerService.cs:148-183 | with the refined quote within 0.8 × budget, exactly one refine send, and the refined proposal is the one kept |
| Negotiation.AirAtBudgetHundred | travel/cs/Agents/TravelPlannerService.cs:196 | at a budget of 100, the Air search proposal starts a refinement loop with one air.refine send per round |
| Negotiation.ChannelsAgree | travel/cs/Agents/TravelPlannerService.cs:54-125 | the fan-out channels and the refine channels are the ones the suppliers listen on, and the Air and Train replies decode as proposals for the same trip |

## Left out

- The message connector: `AgentRoleConnector`, the topology file, handler registration and
  the AMQP transport are outside this model. A send is an entry in a trace, and which send
  throws is an input.
- The `HandlerOptionsFlags` delivery semantics are not modelled. In particular, the
  `AutoComplete` acknowledgement of the Air and Train handlers is the connector's, so
  their traces hold no `Complete`. Redelivery after a missing acknowledgement is not
  modelled either.
- Concurrency: both `ConcurrentDictionary` maps are sequential maps, each update atomic.
  Interleaved handler runs are not modelled.
- CloudEvent `source` and `time` attributes, `DateTimeOffset.UtcNow` and `Uri` construction:
  they play no part in any decision.
- `Confidence` (a `float`): floating point, never read.
- `DateTime` values are opaque and only copied. `TravelPreferences` is carried with its
  three fields in every trip request but no handler reads it. `AccommodationPreferences` is
  only ever default-constructed, so it is kept as a record without fields.
- `RoadTravelType` and `VehicleType`: members other than `Bus` and `Economy` are never
  produced, so they are kept abstract.
- `AgentType`, `TravelOption` and `RefinementRequest` are not part of the source files
  available. They are modelled from their use: five agent types, and (name, price,
  description) and (trip id, agent type, reason, feedback) records.
- The typed Road, Accommodation and RentalCar senders: the envelope their typed send
  produces is built inside the connector. Their replies are therefore not connected to the
  orchestrator's type-string check, and the negotiation is modelled for Air and Train only.
- `AgentType.ToString()` and `ToLower()` are modelled for ASCII only, with no culture
  rules. `decimal.ToString()` uses '.' as the separator.
- TravelPlannerService.OverBudget: it compares exact values. The C# `decimal` limits are not
  modelled: the 96-bit mantissa, the scale of at most 28, and the rounding of
  `request.Budget * 0.8m` when the exact product needs more digits than that. So near
  those limits the C# test can differ from the model. For example, a budget of
  0.0000000000000000000000000001 has its threshold rounded back up to the budget itself.
- Messages: record fields that are references are never null in the model. In C#, a null
  `TripId` makes the map access throw (`_tripStates[...]` at line 36, `TryGetValue` at
  line 148): the handler then sends nothing and does not acknowledge. A null `Dates`
  throws after the trip's state has already been overwritten. These error paths are not
  modelled.
- Console output and `Task.Delay(-1)`.
- Negotiation.RefineLoopUnbounded: the supplier replies are followed for a bounded number
  `n` of rounds, for every `n`; an infinite exchange is not stated as one object. Sends
  never throw in the negotiation.
