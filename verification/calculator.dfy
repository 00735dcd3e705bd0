/**
 The price estimator of the page: its three pieces of state, the
 "calculate" handler and the contact-form "submit" handler, each as a pure
 step from a state to a new state plus the toast it raises.
 */
module Calculator {
  import opened Wrappers
  import opened Catalog

  /** The estimator's state: the raw text of the area input, the selected work
      type (a catalog title, or "" before any choice) and the last computed
      price (`None` is the page's `null`). */
  datatype State = State(area: string, workType: string, price: Option<real>)

  /** The toast a handler raises, if any. */
  datatype Toast =
    | NoToast
    | FillAllFields   // the destructive "please fill in all fields" error
    | RequestSent     // the acknowledgement of the contact form
  {
    predicate IsError() {
      FillAllFields?
    }
  }

  /** What one handler produces: the new state and the toast it raised. */
  datatype Step = Step(state: State, toast: Toast)

  /** The state the page starts in: both inputs empty and no price. */
  function Init(): (s: State)
    ensures s.area == "" && s.workType == ""
    ensures s.price.None?
  {
    State("", "", None)
  }

  /** The result panel is rendered exactly when a price is present. */
  predicate PanelShown(s: State) {
    s.price.Some?
  }

  /** The calculate handler. `parse` stands for `parseFloat`.
      Either input being empty raises the error toast and changes nothing;
      otherwise the first catalog entry titled `workType` prices the area as
      parsed area times unit price, with no rounding and no check of the
      area's sign;
      a title no entry carries changes nothing and raises nothing. */
  function Calculate(c: seq<Service>, parse: string -> real, s: State): (r: Step)
    ensures r.state.area == s.area && r.state.workType == s.workType
    ensures r.toast.IsError() <==> s.area == "" || s.workType == ""
    ensures r.toast.IsError() ==> r.state.price == s.price
    ensures !r.toast.IsError() ==> r.toast == NoToast
    ensures !r.toast.IsError() ==>
              forall k :: IsFirstMatch(c, s.workType, k) ==>
                r.state.price.Some? && r.state.price.value == parse(s.area) * c[k].pricePerSqm as real
    ensures !HasTitle(c, s.workType) ==> r.state == s
    ensures r.state.price != s.price ==> r.state.price.Some?
  {
    if s.area == "" || s.workType == "" then
      Step(s, FillAllFields)
    else
      match Find(c, s.workType)
      case Some(service) => Step(s.(price := Some(parse(s.area) * service.pricePerSqm as real)), NoToast)
      case None => Step(s, NoToast)
  }

  /** The contact-form handler: it only raises the acknowledgement toast; the
      estimator's state is untouched. */
  function Submit(s: State): (r: Step)
    ensures r.state == s
    ensures r.toast == RequestSent && !r.toast.IsError()
  {
    Step(s, RequestSent)
  }

  /** In a catalog whose titles are distinct (the page's own, by
      `Services`), whichever entry carries the selected title is the one that
      prices the area, and only the price changes. */
  lemma CalculateDistinctCatalog(c: seq<Service>, parse: string -> real, s: State, k: int)
    requires TitlesDistinct(c)
    requires s.area != "" && s.workType != ""
    requires 0 <= k < |c| && c[k].title == s.workType
    ensures var r := Calculate(c, parse, s);
      && r.toast == NoToast
      && r.state.area == s.area && r.state.workType == s.workType
      && r.state.price.Some?
      && r.state.price.value == parse(s.area) * c[k].pricePerSqm as real
  {
  }

  /** The calculator neither validates nor rounds: whichever entry the lookup
      finds, an area parsing to zero or a negative number is priced like any
      other, and no error is raised. */
  lemma NoAreaValidation(c: seq<Service>, parse: string -> real, s: State, k: int)
    requires s.area != "" && s.workType != ""
    requires IsFirstMatch(c, s.workType, k)
    requires parse(s.area) <= 0.0
    ensures var r := Calculate(c, parse, s);
      && r.toast == NoToast
      && r.state.price.Some?
      && r.state.price.value == parse(s.area) * c[k].pricePerSqm as real
      && r.state.price.value <= 0.0
  {
  }

  /** An unknown work type is a silent no-op, not an error. */
  lemma UnknownWorkTypeIsSilent(parse: string -> real, s: State)
    requires s.area != "" && s.workType != ""
    requires s.workType !in Options(Services())
    ensures Calculate(Services(), parse, s) == Step(s, NoToast)
  {
  }
}
