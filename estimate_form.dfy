/** The estimate form's state: the `estimateData` record, the
    `estimatedPrice` shown under the form, and the event handlers that update
    them.

    The source replaces the record on every event with
    `setEstimateData(prev => ({ ...prev, ... }))`; the updaters below are
    those `prev => ...` functions. The page's two state slots and the events
    that drive them are modelled twice: as a value (Page, Step, Run) for
    reasoning about whole event sequences, and as the mutable component
    (EstimateSection) whose handler methods are specified by Step. */
module EstimateForm {
  import opened Pricing

  datatype Option<T> = None | Some(value: T)

  /** The `estimateData` record. The field names are the input names the
      form uses. `hours` is a count; `location` and `resolution` hold
      whatever value the select element delivers. */
  datatype EstimateData = EstimateData(
    name: string,
    email: string,
    hours: nat,
    location: string,
    resolution: string,
    lat: Option<real>,
    lng: Option<real>)

  /** The record the form starts with. */
  const InitialData: EstimateData :=
    EstimateData("", "", 1, "urban", "4k", None, None)

  /** The fields of the record, for stating which ones an update touches. */
  datatype Field = Name | Email | Hours | Location | Resolution | Lat | Lng

  /** The value of one field, whatever its type. */
  datatype FieldValue = Text(text: string) | Count(count: nat) | Coordinate(coordinate: Option<real>)

  function Get(d: EstimateData, f: Field): FieldValue {
    match f
    case Name => Text(d.name)
    case Email => Text(d.email)
    case Hours => Count(d.hours)
    case Location => Text(d.location)
    case Resolution => Text(d.resolution)
    case Lat => Coordinate(d.lat)
    case Lng => Coordinate(d.lng)
  }

  /** A change event of one form control: its `name` and its `value`. */
  datatype Input =
    | NameInput(name: string)
    | EmailInput(email: string)
    | HoursInput(hours: nat)
    | LocationInput(location: string)
    | ResolutionInput(resolution: string)
  {
    function Target(): Field {
      match this
      case NameInput(_) => Name
      case EmailInput(_) => Email
      case HoursInput(_) => Hours
      case LocationInput(_) => Location
      case ResolutionInput(_) => Resolution
    }

    function Value(): FieldValue {
      match this
      case NameInput(s) => Text(s)
      case EmailInput(s) => Text(s)
      case HoursInput(h) => Count(h)
      case LocationInput(s) => Text(s)
      case ResolutionInput(s) => Text(s)
    }
  }

  /** The single-field merge `{ ...prev, [name]: value }` of
      `handleInputChange`: the named field takes the value, every other field
      keeps its own. */
  function ApplyInput(d: EstimateData, input: Input): (r: EstimateData)
    ensures Get(r, input.Target()) == input.Value()
    ensures forall f :: f != input.Target() ==> Get(r, f) == Get(d, f)
  {
    match input
    case NameInput(s) => d.(name := s)
    case EmailInput(s) => d.(email := s)
    case HoursInput(h) => d.(hours := h)
    case LocationInput(s) => d.(location := s)
    case ResolutionInput(s) => d.(resolution := s)
  }

  /** The coordinate merge `{ ...prev, lat, lng }` that both the marker's
      `dragend` listener and the geolocation success callback perform: both
      coordinates are set together and nothing else changes. */
  function SetPosition(d: EstimateData, lat: real, lng: real): (r: EstimateData)
    ensures Get(r, Lat) == Coordinate(Some(lat)) && Get(r, Lng) == Coordinate(Some(lng))
    ensures forall f :: f != Lat && f != Lng ==> Get(r, f) == Get(d, f)
  {
    d.(lat := Some(lat), lng := Some(lng))
  }

  /** `calculateEstimate` reads three fields of the record. */
  function CalculateEstimate(d: EstimateData): (p: nat)
    ensures IsRounding(p, Total(d.hours, d.location, d.resolution))
  {
    Price(d.hours, d.location, d.resolution)
  }

  /** The `estimatedPrice > 0` gate under which the price is displayed; 0
      means "not computed yet". */
  predicate PriceShown(estimatedPrice: nat) {
    estimatedPrice > 0
  }

  /** Both coordinates are null, or both are set. */
  predicate CoordinatesPaired(d: EstimateData) {
    d.lat.None? <==> d.lng.None?
  }

  // ----- the page as a value, driven by a sequence of events -----

  /** The component's two state slots, `estimateData` and `estimatedPrice`. */
  datatype Page = Page(data: EstimateData, estimatedPrice: nat)

  const InitialPage: Page := Page(InitialData, 0)

  /** The events that change the page's state. */
  datatype Event =
    | Change(input: Input)                    // handleInputChange
    | MarkerDragEnd(lat: real, lng: real)     // the marker's 'dragend' listener
    | LocationFound(lat: real, lng: real)     // the getCurrentPosition success callback
    | Submit                                  // a submit of the form

  /** The browser's constraint validation of the form: name, email and hours
      are `required` and hours has `min="1"`. The attributes neither clamp nor
      filter change events; they only keep an invalid form from being
      submitted, so `handleSubmit` runs only when this holds. */
  predicate FormValid(d: EstimateData) {
    d.name != "" && d.email != "" && d.hours >= 1
  }

  /** The state after one event. A submit of an invalid form is blocked by
      the browser and changes nothing. */
  function Step(s: Page, e: Event): Page {
    match e
    case Change(input) => s.(data := ApplyInput(s.data, input))
    case MarkerDragEnd(lat, lng) => s.(data := SetPosition(s.data, lat, lng))
    case LocationFound(lat, lng) => s.(data := SetPosition(s.data, lat, lng))
    case Submit => if FormValid(s.data) then s.(estimatedPrice := CalculateEstimate(s.data)) else s
  }

  /** The state after a sequence of events, the first one first. */
  function Run(s: Page, events: seq<Event>): Page
    decreases |events|
  {
    if events == [] then s else Run(Step(s, events[0]), events[1..])
  }

  /** Some submit in `events`, run from `s`, passes the browser's validation
      and so reaches `handleSubmit`. */
  predicate SubmitAccepted(s: Page, events: seq<Event>)
    decreases |events|
  {
    && events != []
    && ((events[0] == Submit && FormValid(s.data)) || SubmitAccepted(Step(s, events[0]), events[1..]))
  }

  /** What holds of every page state reachable from the initial one. */
  predicate Invariant(s: Page) {
    && CoordinatesPaired(s.data)
    && (s.estimatedPrice == 0 || s.estimatedPrice >= 100)
  }

  // ----- properties -----

  /** The form starts with 1 hour, urban, 4k, empty name and email, no
      coordinates, and no price on display. */
  lemma InitialState()
    ensures InitialPage.data.hours == 1
    ensures InitialPage.data.location == "urban" && InitialPage.data.resolution == "4k"
    ensures InitialPage.data.name == "" && InitialPage.data.email == ""
    ensures InitialPage.data.lat.None? && InitialPage.data.lng.None?
    ensures !PriceShown(InitialPage.estimatedPrice)
    ensures Invariant(InitialPage)
  {
  }

  /** The price depends on hours, location and resolution only: name, email
      and the coordinates do not affect it. */
  lemma EstimateIgnoresOtherFields(d1: EstimateData, d2: EstimateData)
    requires d1.hours == d2.hours && d1.location == d2.location && d1.resolution == d2.resolution
    ensures CalculateEstimate(d1) == CalculateEstimate(d2)
  {
  }

  /** A submit leaves the record as it was. When the form is valid it sets
      the price from the current record; otherwise it is blocked and changes
      nothing. Submitting twice is the same as submitting once. */
  lemma SubmitReadsOnly(s: Page)
    ensures Step(s, Submit).data == s.data
    ensures FormValid(s.data) ==> Step(s, Submit).estimatedPrice == CalculateEstimate(s.data)
    ensures !FormValid(s.data) ==> Step(s, Submit) == s
    ensures Step(Step(s, Submit), Submit) == Step(s, Submit)
  {
  }

  /** Every event but a submit leaves the displayed price alone; a moved
      marker or a found location also leaves the price a submit would
      compute unchanged. */
  lemma OnlySubmitSetsPrice(s: Page, e: Event)
    requires !e.Submit?
    ensures Step(s, e).estimatedPrice == s.estimatedPrice
    ensures e.MarkerDragEnd? || e.LocationFound? ==> CalculateEstimate(Step(s, e).data) == CalculateEstimate(s.data)
  {
  }

  /** Changing the hours and submitting again replaces the displayed price by
      the price for the new hours when the form is then valid, and leaves the
      old price on display when the browser blocks the submit. */
  lemma ResubmitAfterHoursChange(s: Page, hours: nat)
    ensures FormValid(s.data.(hours := hours)) ==>
      Run(s, [Change(HoursInput(hours)), Submit]).estimatedPrice == Price(hours, s.data.location, s.data.resolution)
    ensures !FormValid(s.data.(hours := hours)) ==>
      Run(s, [Change(HoursInput(hours)), Submit]).estimatedPrice == s.estimatedPrice
  {
    var events := [Change(HoursInput(hours)), Submit];
    var changed := Step(s, events[0]);
    assert events[1..] == [Submit];
    assert Run(s, events) == Run(changed, [Submit]);
    assert [Submit][1..] == [];
    assert Run(changed, [Submit]) == Step(changed, Submit);
    assert changed.data == s.data.(hours := hours);
  }

  /** A price stays on display when the hours are cleared to 0 after a
      submit: the second submit is blocked. */
  lemma BlockedResubmitKeepsPrice()
    ensures Run(Page(InitialData.(name := "Ada", email := "ada@example.com"), 0),
                [Submit, Change(HoursInput(0)), Submit]).estimatedPrice == 100
  {
    var s0 := Page(InitialData.(name := "Ada", email := "ada@example.com"), 0);
    var events := [Submit, Change(HoursInput(0)), Submit];
    PriceClosedForm(1);
    var s1 := Step(s0, Submit);
    assert s1.estimatedPrice == 100;
    var s2 := Step(s1, Change(HoursInput(0)));
    assert !FormValid(s2.data);
    assert events[1..] == [Change(HoursInput(0)), Submit];
    assert events[1..][1..] == [Submit];
    assert Run(s0, events) == Run(s1, events[1..]) == Run(s2, [Submit]);
    assert Run(s2, [Submit]) == Run(Step(s2, Submit), []);
  }

  /** After a submit the price is on display exactly when the form was valid
      or a price was on display already. */
  lemma SubmitShowsPrice(s: Page)
    ensures PriceShown(Step(s, Submit).estimatedPrice) <==> FormValid(s.data) || PriceShown(s.estimatedPrice)
  {
    PricePositive(s.data.hours, s.data.location, s.data.resolution);
  }

  /** Every event keeps the invariant. */
  lemma StepKeepsInvariant(s: Page, e: Event)
    requires Invariant(s)
    ensures Invariant(Step(s, e))
  {
    if e.Submit? {
      PriceBounds(s.data.hours, s.data.location, s.data.resolution);
    } else if e.Change? {
      assert Get(Step(s, e).data, Lat) == Get(s.data, Lat);
      assert Get(Step(s, e).data, Lng) == Get(s.data, Lng);
    }
  }

  /** Every sequence of events keeps the invariant. */
  lemma {:induction false} RunKeepsInvariant(s: Page, events: seq<Event>)
    requires Invariant(s)
    ensures Invariant(Run(s, events))
    decreases |events|
  {
    if events != [] {
      StepKeepsInvariant(s, events[0]);
      RunKeepsInvariant(Step(s, events[0]), events[1..]);
    }
  }

  /** From the initial state, after any sequence of events, the coordinates
      are both null or both set, the price is 0 or at least 100, and a price
      is on display exactly when some submit has passed validation. */
  lemma {:induction false} Reachable(events: seq<Event>)
    ensures CoordinatesPaired(Run(InitialPage, events).data)
    ensures Run(InitialPage, events).estimatedPrice == 0 || Run(InitialPage, events).estimatedPrice >= 100
    ensures PriceShown(Run(InitialPage, events).estimatedPrice) <==> SubmitAccepted(InitialPage, events)
  {
    RunKeepsInvariant(InitialPage, events);
    ShownAfterSubmit(InitialPage, events);
  }

  /** A price is on display after a sequence of events exactly when it was
      already, or some submit in the sequence passed validation. */
  lemma {:induction false} ShownAfterSubmit(s: Page, events: seq<Event>)
    ensures PriceShown(Run(s, events).estimatedPrice) <==> PriceShown(s.estimatedPrice) || SubmitAccepted(s, events)
    decreases |events|
  {
    if events != [] {
      var e := events[0];
      if e.Submit? {
        SubmitShowsPrice(s);
      }
      ShownAfterSubmit(Step(s, e), events[1..]);
    }
  }

  // ----- the component, with its two state slots updated in place -----

  /** The mounted component: `estimateData` and `estimatedPrice` as fields
      that the event handlers reassign. */
  class EstimateSection {
    var data: EstimateData
    var estimatedPrice: nat

    /** The two slots seen as a Page value. */
    function State(): Page
      reads this
    {
      Page(data, estimatedPrice)
    }

    /** The initial state of both slots. */
    constructor ()
      ensures State() == InitialPage
    {
      data := InitialData;
      estimatedPrice := 0;
    }

    /** `handleInputChange`: merges the changed control's value. */
    method HandleInputChange(input: Input)
      modifies this
      ensures State() == Step(old(State()), Change(input))
      ensures Get(data, input.Target()) == input.Value()
      ensures forall f :: f != input.Target() ==> Get(data, f) == Get(old(data), f)
      ensures estimatedPrice == old(estimatedPrice)
    {
      data := ApplyInput(data, input);
    }

    /** The marker's `dragend` listener, given the marker's position. */
    method HandleMarkerDragEnd(lat: real, lng: real)
      modifies this
      ensures State() == Step(old(State()), MarkerDragEnd(lat, lng))
      ensures data.lat == Some(lat) && data.lng == Some(lng)
      ensures forall f :: f != Lat && f != Lng ==> Get(data, f) == Get(old(data), f)
      ensures estimatedPrice == old(estimatedPrice)
    {
      data := SetPosition(data, lat, lng);
    }

    /** The success callback of `getCurrentPosition` in
        `handleUseCurrentLocation`, given the reported coordinates. */
    method HandleLocationFound(latitude: real, longitude: real)
      modifies this
      ensures State() == Step(old(State()), LocationFound(latitude, longitude))
      ensures data.lat == Some(latitude) && data.lng == Some(longitude)
      ensures forall f :: f != Lat && f != Lng ==> Get(data, f) == Get(old(data), f)
      ensures estimatedPrice == old(estimatedPrice)
    {
      data := SetPosition(data, latitude, longitude);
    }

    /** A submit of the form. The browser lets it through to `handleSubmit`
        only when FormValid holds; `handleSubmit` then recomputes the price
        from the current record, which stays as it was. */
    method HandleSubmit()
      modifies this
      ensures State() == Step(old(State()), Submit)
      ensures data == old(data)
      ensures FormValid(data) ==> IsRounding(estimatedPrice, Total(data.hours, data.location, data.resolution))
      ensures FormValid(data) ==> PriceShown(estimatedPrice)
      ensures !FormValid(data) ==> estimatedPrice == old(estimatedPrice)
    {
      if FormValid(data) {
        estimatedPrice := CalculateEstimate(data);
        PricePositive(data.hours, data.location, data.resolution);
      }
    }
  }
}
