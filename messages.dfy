/**
  The message records exchanged by the travel planner and its supplier agents,
  the CloudEvent envelope that carries them, and C# `decimal` money.
  The records carry no behaviour; only the decimal helpers have contracts.
*/
module Messages {
  import opened Wrappers

  /** The closed enumeration of supplier categories. */
  datatype AgentType = Air | Train | Road | Accommodation | RentalCar

  /**
    A C# `decimal`: an exact base-10 number `mantissa / 10^scale`. The scale is
    kept because it decides how the value prints (`100m` prints "100", `100.00m`
    prints "100.00").
  */
  datatype Decimal = Decimal(mantissa: int, scale: nat)

  /** The exact numeric value of a decimal. */
  function Value(d: Decimal): real
    decreases d.scale
  {
    if d.scale == 0 then d.mantissa as real
    else Value(Decimal(d.mantissa, d.scale - 1)) / 10.0
  }

  /** A literal such as `450.00m`, written as its number of hundredths. */
  function Cents(hundredths: int): (d: Decimal)
    ensures Value(d) == hundredths as real / 100.0
  {
    assert Value(Decimal(hundredths, 1)) == hundredths as real / 10.0;
    Decimal(hundredths, 2)
  }

  function DigitChar(d: nat): (c: char)
    requires d < 10
    ensures '0' <= c <= '9' && c as int - '0' as int == d
  {
    ('0' as int + d) as char
  }

  /** A string made of decimal digits only. */
  predicate Digits(s: string)
  {
    forall i :: 0 <= i < |s| ==> '0' <= s[i] <= '9'
  }

  /** The number a string of decimal digits spells, most significant first. */
  function DigitsValue(s: string): nat
    requires Digits(s)
    decreases |s|
  {
    if s == [] then 0
    else DigitsValue(s[..|s| - 1]) * 10 + (s[|s| - 1] as int - '0' as int)
  }

  lemma DigitsValueSnoc(s: string, c: char)
    requires Digits(s) && '0' <= c <= '9'
    ensures Digits(s + [c])
    ensures DigitsValue(s + [c]) == DigitsValue(s) * 10 + (c as int - '0' as int)
  {
    assert (s + [c])[..|s|] == s;
  }

  /** The decimal digits of `n`, most significant first, without leading zeros. */
  function NatText(n: nat): (s: string)
    ensures 1 <= |s|
    ensures forall i :: 0 <= i < |s| ==> '0' <= s[i] <= '9'
    ensures |s| > 1 ==> s[0] != '0'
    decreases n
  {
    if n < 10 then [DigitChar(n)] else NatText(n / 10) + [DigitChar(n % 10)]
  }

  /**
    The digits of `n` with a '.' before the last `scale` of them, padded with
    '0's so that at least one digit stands before the point.
  */
  function PointedText(n: nat, scale: nat): (s: string)
    ensures |s| >= scale + 1
    ensures forall i :: 0 <= i < |s| ==> s[i] == '.' || '0' <= s[i] <= '9'
    ensures scale > 0 ==> |s| >= scale + 2 && s[|s| - scale - 1] == '.'
    ensures scale == 0 ==> '.' !in s
    // no leading zero before the point unless it is the only digit there
    ensures scale == 0 && |s| > 1 ==> s[0] != '0'
    ensures scale > 0 && |s| > scale + 2 ==> s[0] != '0'
    decreases scale
  {
    if scale == 0 then NatText(n)
    else if scale == 1 then PointedText(n / 10, 0) + "." + [DigitChar(n % 10)]
    else PointedText(n / 10, scale - 1) + [DigitChar(n % 10)]
  }

  /**
    `decimal.ToString()` with '.' as the separator: the digits of the mantissa,
    at least one before the point, exactly `scale` after it, and a leading '-'
    for a negative value.
  */
  function DecimalText(d: Decimal): (s: string)
    ensures |s| >= 1
    ensures (s[0] == '-') <==> d.mantissa < 0
    ensures d.scale > 0 ==> |s| >= d.scale + 2 && s[|s| - d.scale - 1] == '.'
    ensures d.scale == 0 ==> '.' !in s
    // no leading zero before the point unless it is the only digit there
    ensures var sign := if d.mantissa < 0 then 1 else 0;
      var whole := if d.scale == 0 then |s| - sign else |s| - sign - d.scale - 1;
      whole > 1 ==> s[sign] != '0'
  {
    var unsigned := PointedText(if d.mantissa < 0 then -d.mantissa else d.mantissa, d.scale);
    if d.mantissa < 0 then "-" + unsigned else unsigned
  }

  /** Reading the digits of `NatText(n)` back gives `n`. */
  lemma {:induction false} NatTextValue(n: nat)
    ensures Digits(NatText(n)) && DigitsValue(NatText(n)) == n
    decreases n
  {
    if n < 10 {
      assert NatText(n)[..0] == [];
    } else {
      NatTextValue(n / 10);
      DigitsValueSnoc(NatText(n / 10), DigitChar(n % 10));
    }
  }

  /**
    `s` is digits with a point before the last `scale` of them, at least one
    digit before it, and the digits read together spell `n`.
  */
  predicate SpellsWithPoint(s: string, scale: nat, n: nat)
  {
    var k := |s| - scale - 1;
    && k >= 1 && s[k] == '.'
    && Digits(s[..k]) && Digits(s[k + 1..])
    && DigitsValue(s[..k] + s[k + 1..]) == n
  }

  lemma PointedTextOne(n: nat)
    ensures SpellsWithPoint(PointedText(n, 1), 1, n)
  {
    var t, c := NatText(n / 10), DigitChar(n % 10);
    var s := PointedText(n, 1);
    assert s == t + "." + [c];
    assert s[..|t|] == t && s[|t| + 1..] == [c];
    NatTextValue(n / 10);
    DigitsValueSnoc(t, c);
  }

  /** A digit appended after a pointed number moves the point one place left in value. */
  lemma AppendAfterPoint(t: string, c: char, scale: nat, m: nat)
    requires '0' <= c <= '9'
    requires SpellsWithPoint(t, scale, m)
    ensures SpellsWithPoint(t + [c], scale + 1, m * 10 + (c as int - '0' as int))
  {
    var s := t + [c];
    var k := |t| - scale - 1;
    assert s[..k] == t[..k];
    assert s[k + 1..] == t[k + 1..] + [c];
    assert s[..k] + s[k + 1..] == (t[..k] + t[k + 1..]) + [c];
    DigitsValueSnoc(t[..k] + t[k + 1..], c);
  }

  lemma PointedTextStep(n: nat, scale: nat)
    requires scale >= 2
    requires SpellsWithPoint(PointedText(n / 10, scale - 1), scale - 1, n / 10)
    ensures SpellsWithPoint(PointedText(n, scale), scale, n)
  {
    var t, c := PointedText(n / 10, scale - 1), DigitChar(n % 10);
    assert PointedText(n, scale) == t + [c];
    AppendAfterPoint(t, c, scale - 1, n / 10);
  }

  /**
    `PointedText(n, scale)` is the digits of `n` with a point before the last
    `scale` of them: with the point taken out, the digits read back as `n`.
  */
  lemma {:induction false} PointedTextValue(n: nat, scale: nat)
    ensures scale == 0 ==> Digits(PointedText(n, 0)) && DigitsValue(PointedText(n, 0)) == n
    ensures scale > 0 ==> SpellsWithPoint(PointedText(n, scale), scale, n)
    decreases scale
  {
    if scale == 0 {
      NatTextValue(n);
    } else if scale == 1 {
      PointedTextOne(n);
    } else {
      PointedTextValue(n / 10, scale - 1);
      PointedTextStep(n, scale);
    }
  }

  /**
    The digits of `DecimalText(d)` spell the mantissa: after the optional '-',
    the digits before and after the point, read together, give `|mantissa|`,
    and exactly `scale` of them follow the point.
  */
  lemma DecimalTextValue(d: Decimal)
    ensures var s := DecimalText(d);
      var u := if d.mantissa < 0 then s[1..] else s;
      var magnitude := if d.mantissa < 0 then -d.mantissa else d.mantissa;
      && (d.scale == 0 ==> Digits(u) && DigitsValue(u) == magnitude)
      && (d.scale > 0 ==> SpellsWithPoint(u, d.scale, magnitude))
  {
    var magnitude := if d.mantissa < 0 then -d.mantissa else d.mantissa;
    PointedTextValue(magnitude, d.scale);
    if d.mantissa < 0 {
      assert DecimalText(d)[1..] == PointedText(magnitude, d.scale);
    }
  }

  /** A whole-number budget is written without a point. */
  lemma WholeBudgetText()
    ensures DecimalText(Decimal(100, 0)) == "100"
  {
    assert NatText(10) == NatText(1) + "0";
    assert NatText(100) == NatText(10) + "0";
  }

  /** A price keeps its two decimals, trailing zeros included. */
  lemma PriceText()
    ensures DecimalText(Cents(45000)) == "450.00"
  {
    assert NatText(45) == NatText(4) + "5";
    assert NatText(450) == NatText(45) + "0";
    assert PointedText(4500, 1) == NatText(450) + "." + "0";
    assert PointedText(45000, 2) == PointedText(4500, 1) + "0";
  }

  /** A negative amount below one gets its sign and a leading zero. */
  lemma SmallNegativeText()
    ensures DecimalText(Decimal(-5, 2)) == "-0.05"
  {
    assert PointedText(0, 1) == NatText(0) + "." + "0";
    assert PointedText(5, 2) == PointedText(0, 1) + "5";
  }

  /** `DateTime` values are only copied from one record to another. */
  datatype DateTime = DateTime(ticks: int)

  datatype DateRange = DateRange(start: DateTime, end: DateTime)

  /** Carried by a trip request; no handler reads it. */
  datatype TravelPreferences = TravelPreferences(
    preferredModes: seq<string>,
    accommodationType: string,
    flexibleDates: bool)

  datatype TravelRequest = TravelRequest(
    tripId: string,
    origin: string,
    destination: string,
    dates: DateRange,
    preferences: TravelPreferences,
    budget: Decimal)

  datatype TravelOption = TravelOption(name: string, price: Decimal, description: string)

  /** A supplier's priced answer; the float `Confidence` is not part of this model. */
  datatype TravelProposal = TravelProposal(
    tripId: string,
    agentType: AgentType,
    options: seq<TravelOption>,
    estimatedCost: Decimal)

  datatype RefinementRequest = RefinementRequest(
    tripId: string,
    agentType: AgentType,
    reason: string,
    feedback: string)

  datatype FlightSearchRequest = FlightSearchRequest(
    tripId: string,
    origin: string,
    destination: string,
    departDate: DateTime,
    returnDate: Option<DateTime>,
    passengers: int)

  datatype TrainSearchRequest = TrainSearchRequest(
    tripId: string,
    origin: string,
    destination: string,
    departDate: DateTime,
    returnDate: Option<DateTime>,
    passengers: int)

  /** Only `Bus` is ever produced; the enumeration's other members are not part of this model. */
  datatype RoadTravelType = Bus | OtherRoadTravelType(name: string)

  datatype RoadTravelRequest = RoadTravelRequest(
    tripId: string,
    origin: string,
    destination: string,
    departDate: DateTime,
    returnDate: Option<DateTime>,
    travelType: RoadTravelType)

  /** The preferences record is only ever default-constructed; its fields are not part of this model. */
  datatype AccommodationPreferences = AccommodationPreferences

  const DefaultAccommodationPreferences := AccommodationPreferences

  datatype AccommodationRequest = AccommodationRequest(
    tripId: string,
    location: string,
    checkIn: DateTime,
    checkOut: DateTime,
    guests: int,
    preferences: AccommodationPreferences)

  /** Only `Economy` is ever produced; the enumeration's other members are not part of this model. */
  datatype VehicleType = Economy | OtherVehicleType(name: string)

  datatype RentalCarRequest = RentalCarRequest(
    tripId: string,
    location: string,
    pickupDate: DateTime,
    returnDate: DateTime,
    vehicleType: VehicleType)

  /**
    The object in a CloudEvent's `Data`. `OtherData` stands for `null` and for
    any object that is none of these records, so that `Data as T` yields null.
  */
  datatype Payload =
    | TravelRequestData(travelRequest: TravelRequest)
    | FlightSearchData(flightSearch: FlightSearchRequest)
    | TrainSearchData(trainSearch: TrainSearchRequest)
    | RoadTravelData(roadTravel: RoadTravelRequest)
    | AccommodationData(accommodation: AccommodationRequest)
    | RentalCarData(rentalCar: RentalCarRequest)
    | ProposalData(proposal: TravelProposal)
    | RefinementData(refinement: RefinementRequest)
    | OtherData

  /** The CloudEvents attributes the handlers read or set: `type`, `subject` and the data. */
  datatype CloudEvent = CloudEvent(eventType: string, subject: string, data: Payload)

  const TravelRequestType := "com.contoso.travel.TravelRequest"
  const FlightSearchRequestType := "com.contoso.travel.FlightSearchRequest"
  const TrainSearchRequestType := "com.contoso.travel.TrainSearchRequest"
  const RoadTravelRequestType := "com.contoso.travel.RoadTravelRequest"
  const AccommodationRequestType := "com.contoso.travel.AccommodationRequest"
  const RentalCarRequestType := "com.contoso.travel.RentalCarRequest"
  const TravelProposalType := "com.contoso.travel.TravelProposal"
  const RefinementRequestType := "com.contoso.travel.RefinementRequest"

  /** The event a CloudEvent-speaking supplier publishes for a proposal. */
  function ProposalEvent(p: TravelProposal): (ev: CloudEvent)
    ensures ev.eventType == TravelProposalType && ev.subject == p.tripId
    ensures ev.data.ProposalData? && ev.data.proposal == p
  {
    CloudEvent(TravelProposalType, p.tripId, ProposalData(p))
  }
}
