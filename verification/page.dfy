/**
 The estimator as the page drives it: the user's actions in order, each
 applied to the estimator's state, starting from the initial state.
 */
module Page {
  import opened Catalog
  import opened Calculator

  /** The user actions that reach the estimator's state. */
  datatype Event =
    | EnterArea(text: string)        // typing in the area input
    | ChooseWorkType(title: string)  // picking an entry in the work-type selector
    | PressCalculate                 // the "calculate" button
    | SubmitContact                  // submitting the contact form

  /** `e`, applied to `s`, is a calculation that finds a catalog entry. */
  predicate Prices(c: seq<Service>, s: State, e: Event) {
    e.PressCalculate? && s.area != "" && s.workType != "" && HasTitle(c, s.workType)
  }

  /** One user action. Editing an input changes only that input: a price shown
      earlier stays on screen. */
  function Apply(c: seq<Service>, parse: string -> real, s: State, e: Event): (r: Step)
    ensures e.EnterArea? ==> r.state.workType == s.workType && r.state.area == e.text
    ensures e.ChooseWorkType? ==> r.state.area == s.area && r.state.workType == e.title
    ensures !e.PressCalculate? ==> r.state.price == s.price
    ensures e.SubmitContact? ==> r.state == s
    ensures r.toast.IsError() ==> e.PressCalculate? && r.state == s
    ensures r.state.price != s.price ==> Prices(c, s, e)
    ensures Prices(c, s, e) ==> r.state.price.Some?
  {
    match e
    case EnterArea(text) => Step(s.(area := text), NoToast)
    case ChooseWorkType(title) => Step(s.(workType := title), NoToast)
    case PressCalculate => Calculate(c, parse, s)
    case SubmitContact => Submit(s)
  }

  /** The state after the actions `evs`, in order, starting from `s`. */
  function Run(c: seq<Service>, parse: string -> real, s: State, evs: seq<Event>): (r: State)
    ensures PanelShown(s) ==> PanelShown(r)
    ensures (forall i :: 0 <= i < |evs| ==> !evs[i].PressCalculate?) ==> r.price == s.price
    decreases |evs|
  {
    if |evs| == 0 then s
    else Run(c, parse, Apply(c, parse, s, evs[0]).state, evs[1..])
  }

  /** Some calculation among `evs`, run from `s`, found a catalog entry. */
  predicate SomeCalculationPriced(c: seq<Service>, parse: string -> real, s: State, evs: seq<Event>)
    decreases |evs|
  {
    && |evs| > 0
    && (|| Prices(c, s, evs[0])
        || SomeCalculationPriced(c, parse, Apply(c, parse, s, evs[0]).state, evs[1..]))
  }

  /** The result panel is shown after a run exactly when it was shown before
      or some calculation in the run found a catalog entry. */
  lemma {:induction false} PanelShownIffPriced(c: seq<Service>, parse: string -> real, s: State, evs: seq<Event>)
    ensures PanelShown(Run(c, parse, s, evs)) <==> PanelShown(s) || SomeCalculationPriced(c, parse, s, evs)
    decreases |evs|
  {
    if |evs| > 0 {
      var s' := Apply(c, parse, s, evs[0]).state;
      PanelShownIffPriced(c, parse, s', evs[1..]);
    }
  }

  /** From the page's initial state the panel is shown only after a
      successful calculation, and always after one. */
  lemma PanelShownFromStart(c: seq<Service>, parse: string -> real, evs: seq<Event>)
    ensures PanelShown(Run(c, parse, Init(), evs)) <==> SomeCalculationPriced(c, parse, Init(), evs)
  {
    PanelShownIffPriced(c, parse, Init(), evs);
  }

  /** Every work type chosen in `evs` is one the selector offers. */
  predicate FromSelector(c: seq<Service>, evs: seq<Event>) {
    forall i :: 0 <= i < |evs| && evs[i].ChooseWorkType? ==> evs[i].title in Options(c)
  }

  /** The selected work type is either still empty or a catalog title. */
  predicate WorkTypeKnown(c: seq<Service>, s: State) {
    s.workType == "" || HasTitle(c, s.workType)
  }

  /** Choosing work types only through the selector keeps the selection known. */
  lemma {:induction false} SelectorKeepsWorkTypeKnown(c: seq<Service>, parse: string -> real, s: State, evs: seq<Event>)
    requires WorkTypeKnown(c, s)
    requires FromSelector(c, evs)
    ensures WorkTypeKnown(c, Run(c, parse, s, evs))
    decreases |evs|
  {
    if |evs| > 0 {
      var s' := Apply(c, parse, s, evs[0]).state;
      if evs[0].ChooseWorkType? {
        assert evs[0].title in Options(c);
        OptionsAreFound(c, evs[0].title);
      }
      assert WorkTypeKnown(c, s');
      assert FromSelector(c, evs[1..]) by {
        forall i | 0 <= i < |evs[1..]| && evs[1..][i].ChooseWorkType?
          ensures evs[1..][i].title in Options(c)
        {
          assert evs[1..][i] == evs[i + 1];
        }
      }
      SelectorKeepsWorkTypeKnown(c, parse, s', evs[1..]);
    }
  }

  /** On the page, a calculation after any sequence of widget actions either
      raises the "fill in all fields" error or shows a price for the selected
      catalog entry: the silent no-op branch is unreachable through the UI. */
  lemma CalculationThroughSelectorNeverSilent(parse: string -> real, evs: seq<Event>)
    requires FromSelector(Services(), evs)
    ensures var s := Run(Services(), parse, Init(), evs);
      var r := Calculate(Services(), parse, s);
      r.toast.IsError() || (HasTitle(Services(), s.workType) && PanelShown(r.state))
  {
    SelectorKeepsWorkTypeKnown(Services(), parse, Init(), evs);
  }
}
