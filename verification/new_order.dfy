/** The new-order form: the material catalogue, the draft the page keeps
    while the user fills the form in, the input filters, the order schema,
    submission, and the priority-analysis request. */
module NewOrder {
  import opened Wrappers
  import opened Chars
  import opened Schema
  import opened Find

  // ---------------------------------------------------------------------
  // Catalogue

  datatype Material = Material(name: string, price: nat, unit: string)

  /** The static material catalogue, prices in pesos per unit. */
  const Catalogue: seq<Material> := [
    Material("cemento", 250, "bulto"),
    Material("mortero", 220, "bulto"),
    Material("cal", 80, "bulto"),
    Material("alambre", 15, "kg")
  ]

  function HasName(name: string): Material -> bool {
    (m: Material) => m.name == name
  }

  /** `materials.find(m => m.name === name) || null`. */
  function FindMaterial(name: string): (r: Option<Material>)
    ensures r.Some? ==> r.value in Catalogue && r.value.name == name
    ensures r.None? <==> forall j :: 0 <= j < |Catalogue| ==> Catalogue[j].name != name
  {
    FindFirst(Catalogue, HasName(name))
  }

  /** The catalogue names each material once, so the lookup returns the
      entry of that name, whichever position it sits at. */
  lemma FindMaterialReturnsEntry(i: nat)
    requires i < |Catalogue|
    ensures FindMaterial(Catalogue[i].name) == Some(Catalogue[i])
  {
  }

  /** Any name outside the catalogue (the empty initial value included)
      finds nothing. */
  lemma FindMaterialUnknown(name: string)
    requires name !in {"cemento", "mortero", "cal", "alambre"}
    ensures FindMaterial(name) == None
  {
  }

  // ---------------------------------------------------------------------
  // States and municipalities (an abstract table)

  datatype StateEntry = StateEntry(name: string, municipalities: seq<string>)

  /** The state table as the page needs it: no state has an empty name, so
      the empty initial value selects nothing. */
  predicate WellFormedTable(states: seq<StateEntry>) {
    forall i :: 0 <= i < |states| ==> states[i].name != ""
  }

  function FindState(states: seq<StateEntry>, name: string): (r: Option<StateEntry>)
    ensures r.Some? ==> r.value in states && r.value.name == name
    ensures r.None? <==> forall j :: 0 <= j < |states| ==> states[j].name != name
  {
    FindFirst(states, (s: StateEntry) => s.name == name)
  }

  // ---------------------------------------------------------------------
  // The draft

  /** A delivery date, abstracted to a day number; absent until chosen. */
  datatype DateRange = DateRange(from: Option<int>, to: Option<int>)

  /** The values held by the form (its `z.infer<typeof orderSchema>`). */
  datatype OrderValues = OrderValues(
    requesterName: string,
    phone: string,
    street: string,
    number: string,
    postalCode: string,
    state: string,
    municipality: string,
    material: string,
    quantity: int,
    dates: DateRange)

  /** The page's state: the form values plus the two selections the page
      keeps beside them. */
  datatype Draft = Draft(
    values: OrderValues,
    selectedState: Option<StateEntry>,
    selectedMaterial: Option<Material>)

  const EmptyValues := OrderValues("", "", "", "", "", "", "", "", 0, DateRange(None, None))

  /** The page as first shown, and as left by a submission. */
  const InitialDraft := Draft(EmptyValues, None, None)

  /** What the page keeps true between edits: the selections are the
      lookups of the form's own fields, the municipality belongs to the
      selected state, and the digit fields hold digits only. */
  predicate Consistent(d: Draft, states: seq<StateEntry>) {
    && d.selectedMaterial == FindMaterial(d.values.material)
    && (if d.values.state == "" then d.selectedState == None
        else d.selectedState == FindState(states, d.values.state))
    && (d.values.municipality == ""
        || (d.selectedState.Some? && d.values.municipality in d.selectedState.value.municipalities))
    && AllDigits(d.values.phone)
    && AllDigits(d.values.number)
    && AllDigits(d.values.postalCode)
    && d.values.quantity >= 0
  }

  /** The amount shown as "Total": quantity times the unit price of the
      selected material, nothing without a selection. */
  function Total(d: Draft): (t: int)
    ensures d.selectedMaterial.Some? ==> t == d.values.quantity * d.selectedMaterial.value.price
    ensures d.selectedMaterial.None? ==> t == 0
  {
    match d.selectedMaterial
    case Some(m) => d.values.quantity * m.price
    case None => 0
  }

  /** The unit price of a material name, 0 for a name outside the
      catalogue. */
  function PriceOf(name: string): nat {
    match FindMaterial(name)
    case Some(m) => m.price
    case None => 0
  }

  /** In a consistent draft the total is decided by the form's own material
      field: it never disagrees with the catalogue and is never negative. */
  lemma TotalFollowsMaterialField(d: Draft, states: seq<StateEntry>)
    requires Consistent(d, states)
    ensures Total(d) == d.values.quantity * PriceOf(d.values.material)
    ensures Total(d) >= 0
  {
  }

  /** `handleStateChange` together with the state field's own update: the
      field takes the name, the selection becomes the table entry of that
      name, and the municipality is cleared. */
  function ChangeState(d: Draft, states: seq<StateEntry>, name: string): (r: Draft)
    ensures r.values.state == name && r.values.municipality == ""
    ensures r.selectedState.Some? ==> r.selectedState.value in states && r.selectedState.value.name == name
    ensures r.selectedState.None? <==> forall j :: 0 <= j < |states| ==> states[j].name != name
    ensures r.values == d.values.(state := r.values.state, municipality := r.values.municipality)
    ensures r.selectedMaterial == d.selectedMaterial
  {
    Draft(d.values.(state := name, municipality := ""), FindState(states, name), d.selectedMaterial)
  }

  /** The municipality select is disabled without a selected state and
      offers only that state's municipalities; a choice outside them cannot
      be made and leaves the draft as it is. */
  function ChooseMunicipality(d: Draft, m: string): (r: Draft)
    ensures d.selectedState.Some? && m in d.selectedState.value.municipalities ==>
      r == d.(values := d.values.(municipality := m))
    ensures !(d.selectedState.Some? && m in d.selectedState.value.municipalities) ==> r == d
  {
    if d.selectedState.Some? && m in d.selectedState.value.municipalities
    then d.(values := d.values.(municipality := m))
    else d
  }

  /** `handleMaterialChange`: the field takes the given name whether or not
      it is in the catalogue; the selection is its catalogue entry. */
  function ChangeMaterial(d: Draft, name: string): (r: Draft)
    ensures r.values == d.values.(material := name)
    ensures r.selectedState == d.selectedState
    ensures r.selectedMaterial.Some? ==> r.selectedMaterial.value in Catalogue && r.selectedMaterial.value.name == name
    ensures r.selectedMaterial.None? ==> name !in {"cemento", "mortero", "cal", "alambre"}
  {
    d.(values := d.values.(material := name), selectedMaterial := FindMaterial(name))
  }

  datatype DigitField = PhoneField | NumberField | PostalCodeField

  /** The phone, number and postal-code inputs keep only the digits of
      what was typed. */
  function TypeDigits(d: Draft, f: DigitField, raw: string): (r: Draft)
    ensures r.selectedState == d.selectedState && r.selectedMaterial == d.selectedMaterial
    ensures f == PhoneField ==> r.values == d.values.(phone := KeepDigits(raw)) && AllDigits(r.values.phone)
    ensures f == NumberField ==> r.values == d.values.(number := KeepDigits(raw)) && AllDigits(r.values.number)
    ensures f == PostalCodeField ==> r.values == d.values.(postalCode := KeepDigits(raw)) && AllDigits(r.values.postalCode)
  {
    var digits := KeepDigits(raw);
    match f
    case PhoneField => d.(values := d.values.(phone := digits))
    case NumberField => d.(values := d.values.(number := digits))
    case PostalCodeField => d.(values := d.values.(postalCode := digits))
  }

  /** The quantity input's `onChange`: the empty string sets 0, a digit
      string sets its decimal value, anything else is ignored. */
  function QuantityInput(current: int, raw: string): (q: int)
    ensures raw == "" ==> q == 0
    ensures DigitString(raw) ==> q == DecimalValue(raw)
    ensures raw != "" && !DigitString(raw) ==> q == current
  {
    if raw == "" then 0
    else if DigitString(raw) then DecimalValue(raw)
    else current
  }

  /** Typing the usual rendering of a number sets exactly that number, and
      leading zeros are read as `parseInt` reads them. */
  lemma QuantityInputRoundTrip(current: int, n: nat)
    ensures QuantityInput(current, DecimalString(n)) == n
    ensures QuantityInput(current, "0" + DecimalString(n)) == n
  {
    DecimalRoundTrip(n);
    LeadingZero(DecimalString(n));
  }

  /** A non-negative quantity stays non-negative whatever is typed. */
  lemma QuantityInputNonNegative(current: int, raw: string)
    requires current >= 0
    ensures QuantityInput(current, raw) >= 0
  {
  }

  /** The quantity input's handler, parsing as it goes. */
  method HandleQuantityInput(current: int, raw: string) returns (q: int)
    ensures q == QuantityInput(current, raw)
  {
    if raw == "" {
      q := 0;
    } else if DigitString(raw) {
      q := ParseDecimal(raw);
    } else {
      q := current;
    }
  }

  /** The edits the page reacts to. */
  datatype Edit =
    | TypeName(name: string)
    | TypeStreet(street: string)
    | TypeDigitField(field: DigitField, raw: string)
    | PickState(state: string)
    | PickMunicipality(municipality: string)
    | PickMaterial(material: string)
    | TypeQuantity(raw: string)
    | PickDates(range: DateRange)

  function Apply(d: Draft, states: seq<StateEntry>, e: Edit): Draft {
    match e
    case TypeName(s) => d.(values := d.values.(requesterName := s))
    case TypeStreet(s) => d.(values := d.values.(street := s))
    case TypeDigitField(f, raw) => TypeDigits(d, f, raw)
    case PickState(name) => ChangeState(d, states, name)
    case PickMunicipality(m) => ChooseMunicipality(d, m)
    case PickMaterial(name) => ChangeMaterial(d, name)
    case TypeQuantity(raw) => d.(values := d.values.(quantity := QuantityInput(d.values.quantity, raw)))
    case PickDates(range) => d.(values := d.values.(dates := range))
  }

  /** Every edit keeps the draft consistent; in particular a state change
      can never leave a municipality of another state behind. */
  lemma ApplyPreservesConsistency(d: Draft, states: seq<StateEntry>, e: Edit)
    requires WellFormedTable(states)
    requires Consistent(d, states)
    ensures Consistent(Apply(d, states, e), states)
  {
    match e
    case TypeName(_) =>
    case TypeStreet(_) =>
    case TypeDigitField(f, raw) => TypeDigitsPreservesConsistency(d, states, f, raw);
    case PickState(name) => ChangeStatePreservesConsistency(d, states, name);
    case PickMunicipality(m) =>
    case PickMaterial(name) =>
    case TypeQuantity(raw) => QuantityInputNonNegative(d.values.quantity, raw);
    case PickDates(_) =>
  }

  lemma TypeDigitsPreservesConsistency(d: Draft, states: seq<StateEntry>, f: DigitField, raw: string)
    requires Consistent(d, states)
    ensures Consistent(TypeDigits(d, f, raw), states)
  {
    var r := TypeDigits(d, f, raw);
    assert AllDigits(KeepDigits(raw));
    assert r.selectedState == d.selectedState && r.selectedMaterial == d.selectedMaterial;
    assert r.values.material == d.values.material && r.values.state == d.values.state;
    assert r.values.municipality == d.values.municipality && r.values.quantity == d.values.quantity;
  }

  lemma ChangeStatePreservesConsistency(d: Draft, states: seq<StateEntry>, name: string)
    requires WellFormedTable(states)
    requires Consistent(d, states)
    ensures Consistent(ChangeState(d, states, name), states)
  {
    var r := ChangeState(d, states, name);
    if name == "" {
      assert FindState(states, name) == None;
    }
    assert r.values.municipality == "";
    assert r.selectedMaterial == FindMaterial(r.values.material);
  }

  /** Every draft reachable from the initial one by edits is consistent. */
  lemma {:induction false} EditsPreserveConsistency(states: seq<StateEntry>, edits: seq<Edit>)
    requires WellFormedTable(states)
    ensures Consistent(ApplyAll(InitialDraft, states, edits), states)
  {
    if edits != [] {
      EditsPreserveConsistency(states, edits[..|edits| - 1]);
      ApplyPreservesConsistency(ApplyAll(InitialDraft, states, edits[..|edits| - 1]), states, edits[|edits| - 1]);
    }
  }

  function ApplyAll(d: Draft, states: seq<StateEntry>, edits: seq<Edit>): Draft {
    if edits == [] then d
    else Apply(ApplyAll(d, states, edits[..|edits| - 1]), states, edits[|edits| - 1])
  }

  // ---------------------------------------------------------------------
  // The order schema

  datatype OrderField =
    | RequesterName | Phone | Street | Number | PostalCode | State
    | Municipality | MaterialName | Quantity | DeliveryFrom | DeliveryTo

  type OrderIssue = Schema.Issue<OrderField>

  function RequiredIssue(f: OrderField, date: Option<int>): seq<OrderIssue> {
    if date.Some? then [] else [Issue(f, Required)]
  }

  /** A digits-only field of minimum length `min`: `.min(min)` then
      `.regex(/^\d+$/)`. */
  function DigitFieldIssues(f: OrderField, s: string, min: nat): (r: seq<OrderIssue>)
    requires min >= 1
    ensures r == [] <==> |s| >= min && AllDigits(s)
    ensures Issue(f, MinLength(min)) in r <==> |s| < min
    ensures Issue(f, Mismatch(OnlyDigits)) in r <==> !DigitString(s)
    ensures forall k :: 0 <= k < |r| ==> r[k].field == f
  {
    MinIssue(f, s, min) + PatternIssue(f, DigitString(s), OnlyDigits)
  }

  function ContactIssues(v: OrderValues): (r: seq<OrderIssue>)
    ensures r == [] <==> v.requesterName != "" && |v.phone| >= 10 && AllDigits(v.phone)
  {
    MinIssue(RequesterName, v.requesterName, 1) + DigitFieldIssues(Phone, v.phone, 10)
  }

  function AddressIssues(v: OrderValues): (r: seq<OrderIssue>)
    ensures r == [] <==>
      && v.street != ""
      && |v.number| >= 1 && AllDigits(v.number)
      && |v.postalCode| >= 5 && AllDigits(v.postalCode)
      && v.state != ""
      && v.municipality != ""
  {
    MinIssue(Street, v.street, 1)
    + DigitFieldIssues(Number, v.number, 1)
    + DigitFieldIssues(PostalCode, v.postalCode, 5)
    + MinIssue(State, v.state, 1)
    + MinIssue(Municipality, v.municipality, 1)
  }

  function MaterialIssues(v: OrderValues): (r: seq<OrderIssue>)
    ensures r == [] <==>
      && v.material != ""
      && v.quantity >= 1
      && v.dates.from.Some? && v.dates.to.Some?
  {
    MinIssue(MaterialName, v.material, 1)
    + (if v.quantity >= 1 then [] else [Issue(Quantity, AtLeast(1))])
    + RequiredIssue(DeliveryFrom, v.dates.from)
    + RequiredIssue(DeliveryTo, v.dates.to)
  }

  /** `orderSchema` (new-order/page.tsx, lines 24-38). */
  function OrderIssues(v: OrderValues): (r: seq<OrderIssue>)
    ensures r == [] <==>
      && v.requesterName != ""
      && |v.phone| >= 10 && AllDigits(v.phone)
      && v.street != ""
      && |v.number| >= 1 && AllDigits(v.number)
      && |v.postalCode| >= 5 && AllDigits(v.postalCode)
      && v.state != ""
      && v.municipality != ""
      && v.material != ""
      && v.quantity >= 1
      && v.dates.from.Some? && v.dates.to.Some?
  {
    ContactIssues(v) + AddressIssues(v) + MaterialIssues(v)
  }

  /** The schema imposes no order between the two delivery dates and no
      upper bound on the postal code's length, and accepts a material name
      outside the catalogue. */
  lemma OrderSchemaLeniency()
    ensures OrderIssues(OrderValues("Ana", "5512345678", "Reforma", "7", "0123456789",
      "Jalisco", "Zapopan", "arena", 1, DateRange(Some(10), Some(2)))) == []
  {
  }

  /** Behind the digit filter, a digit field can fail the digits-only rule
      only by being empty, and then it fails its length rule as well. */
  lemma FilteredFieldFailsOnlyOnLength(d: Draft, states: seq<StateEntry>, f: DigitField)
    requires Consistent(d, states)
    ensures var (field, s, min) := match f
        case PhoneField => (Phone, d.values.phone, 10)
        case NumberField => (Number, d.values.number, 1)
        case PostalCodeField => (PostalCode, d.values.postalCode, 5);
      Issue(field, Mismatch(OnlyDigits)) in DigitFieldIssues(field, s, min) ==>
        s == "" && Issue(field, MinLength(min)) in DigitFieldIssues(field, s, min)
  {
  }

  // ---------------------------------------------------------------------
  // Submission

  /** What `onSubmit` records: the values and the total shown with them. */
  datatype SubmittedOrder = SubmittedOrder(values: OrderValues, total: int)

  /** Submitting a valid draft records it with its total and resets the
      page; an invalid draft is refused with its issues and left intact. */
  function Submit(d: Draft): (r: Result<(SubmittedOrder, Draft), seq<OrderIssue>>)
    ensures r.Success? <==> OrderIssues(d.values) == []
    ensures r.Success? ==> r.value.0 == SubmittedOrder(d.values, Total(d)) && r.value.1 == InitialDraft
    ensures r.Failure? ==> r.error == OrderIssues(d.values) && r.error != []
  {
    var issues := OrderIssues(d.values);
    if issues == [] then Success((SubmittedOrder(d.values, Total(d)), InitialDraft))
    else Failure(issues)
  }

  /** A submitted order of a consistent draft names a catalogue material
      and carries a positive total. */
  lemma SubmittedTotalPositive(d: Draft, states: seq<StateEntry>)
    requires Consistent(d, states)
    requires Submit(d).Success?
    requires d.values.material in {"cemento", "mortero", "cal", "alambre"}
    ensures Submit(d).value.0.total >= 15
  {
    var name := d.values.material;
    var i := if name == "cemento" then 0 else if name == "mortero" then 1
      else if name == "cal" then 2 else 3;
    assert Catalogue[i].name == name;
    FindMaterialReturnsEntry(i);
    var m := Catalogue[i];
    assert d.selectedMaterial == Some(m);
    assert d.values.quantity >= 1;
    assert d.values.quantity * m.price >= m.price >= 15;
  }

  // ---------------------------------------------------------------------
  // Priority analysis

  /** The three labels the analysis service may return. */
  datatype Priority = Urgente | Pronto | Normal

  /** What the page shows under the dates. */
  datatype Shown = PriorityLabel(priority: Priority) | AnalysisFailed

  datatype AnalysisState = AnalysisState(shown: Option<Shown>, analyzing: bool)

  datatype AnalysisRequest = AnalysisRequest(startDate: int, endDate: int)

  /** The effect run whenever either date changes: with both dates a
      request is issued and the previous result cleared; otherwise the
      result is just cleared. */
  function OnDatesChanged(a: AnalysisState, dates: DateRange): (r: (AnalysisState, Option<AnalysisRequest>))
    ensures r.0.shown == None
    ensures r.1.Some? <==> dates.from.Some? && dates.to.Some?
    ensures r.1.Some? ==> r.1.value == AnalysisRequest(dates.from.value, dates.to.value) && r.0.analyzing
    ensures r.1.None? ==> r.0.analyzing == a.analyzing
  {
    if dates.from.Some? && dates.to.Some? then
      (AnalysisState(None, true), Some(AnalysisRequest(dates.from.value, dates.to.value)))
    else
      (a.(shown := None), None)
  }

  /** The completion of a request: its label, or the failure message. */
  function OnAnalysisDone(a: AnalysisState, outcome: Result<Priority, string>): (r: AnalysisState)
    ensures !r.analyzing && r.shown.Some?
    ensures outcome.Success? ==> r.shown == Some(PriorityLabel(outcome.value))
    ensures outcome.Failure? ==> r.shown == Some(AnalysisFailed)
  {
    match outcome
    case Success(p) => AnalysisState(Some(PriorityLabel(p)), false)
    case Failure(_) => AnalysisState(Some(AnalysisFailed), false)
  }

  /** No label is ever shown for a window missing a date, unless a request
      issued earlier completes afterwards. */
  lemma IncompleteDatesClearAnalysis(a: AnalysisState, from: Option<int>)
    ensures OnDatesChanged(a, DateRange(from, None)).0.shown == None
    ensures OnDatesChanged(a, DateRange(from, None)).1 == None
  {
  }

  /** The page as written does not tie a completion to the dates it was
      asked about: pick a full window, clear its end date before the answer
      arrives, and the late answer is shown under an incomplete window. */
  lemma StaleAnalysisShown()
    ensures var (a1, req) := OnDatesChanged(AnalysisState(None, false), DateRange(Some(1), Some(3)));
      var (a2, _) := OnDatesChanged(a1, DateRange(Some(1), None));
      req.Some? && OnAnalysisDone(a2, Success(Urgente)).shown == Some(PriorityLabel(Urgente))
  {
  }

  /** The analysis state with the outstanding request and the dates it is
      about, so that a completion can be matched to its request; a shown
      label records the request it answers. */
  datatype TrackedAnalysis = TrackedAnalysis(
    shown: Option<(AnalysisRequest, Shown)>,
    pending: Option<AnalysisRequest>,
    dates: DateRange)

  /** A label or failure is only ever shown as the answer to the request
      for the window currently chosen, and only while no newer request is
      outstanding. */
  predicate ShowsCurrentWindow(a: TrackedAnalysis) {
    && (a.shown.Some? ==>
          a.dates.from.Some? && a.dates.to.Some? && a.pending.None?
          && a.shown.value.0 == AnalysisRequest(a.dates.from.value, a.dates.to.value))
    && (a.pending.Some? ==>
          a.dates.from.Some? && a.dates.to.Some?
          && a.pending.value == AnalysisRequest(a.dates.from.value, a.dates.to.value))
  }

  /** The date effect, remembering which request is outstanding. */
  function TrackDatesChanged(a: TrackedAnalysis, dates: DateRange): (r: (TrackedAnalysis, Option<AnalysisRequest>))
    ensures r.0.shown == None && r.0.dates == dates
    ensures r.1.Some? <==> dates.from.Some? && dates.to.Some?
    ensures r.1.Some? ==> r.1.value == AnalysisRequest(dates.from.value, dates.to.value)
    ensures r.0.pending == r.1
    ensures ShowsCurrentWindow(r.0)
  {
    var (_, req) := OnDatesChanged(AnalysisState(None, a.pending.Some?), dates);
    (TrackedAnalysis(None, req, dates), req)
  }

  /** A completion takes effect only if it answers the outstanding request;
      a stale answer is dropped. */
  function TrackAnalysisDone(a: TrackedAnalysis, req: AnalysisRequest, outcome: Result<Priority, string>): (r: TrackedAnalysis)
    ensures a.pending != Some(req) ==> r == a
    ensures a.pending == Some(req) ==>
      r.pending.None? && r.dates == a.dates
      && r.shown == Some((req, OnAnalysisDone(AnalysisState(None, true), outcome).shown.value))
  {
    if a.pending == Some(req) then
      TrackedAnalysis(Some((req, OnAnalysisDone(AnalysisState(None, true), outcome).shown.value)), None, a.dates)
    else a
  }

  datatype AnalysisEvent =
    | DatesChanged(dates: DateRange)
    | AnalysisDone(req: AnalysisRequest, outcome: Result<Priority, string>)

  function TrackAll(a: TrackedAnalysis, events: seq<AnalysisEvent>): TrackedAnalysis {
    if events == [] then a
    else
      var prev := TrackAll(a, events[..|events| - 1]);
      match events[|events| - 1]
      case DatesChanged(dates) => TrackDatesChanged(prev, dates).0
      case AnalysisDone(req, outcome) => TrackAnalysisDone(prev, req, outcome)
  }

  /** With completions matched to their requests, whatever the order in
      which dates change and answers arrive, whatever is shown answers the
      request for exactly the dates currently chosen: nothing is shown for
      an incomplete window or for a superseded request. */
  lemma {:induction false} TrackedShowsCurrentWindow(events: seq<AnalysisEvent>)
    ensures ShowsCurrentWindow(TrackAll(TrackedAnalysis(None, None, DateRange(None, None)), events))
  {
    if events != [] {
      TrackedShowsCurrentWindow(events[..|events| - 1]);
    }
  }
}
