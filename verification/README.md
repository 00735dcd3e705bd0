# Renovation price estimator — Dafny model

The repository is a single-page site for a renovation business. Its only
logic is the price estimator on that page:

- a fixed catalog of three service tiers (rough, pre-finish and finishing
  work) at 3500, 2800 and 4200 roubles per square metre;
- three pieces of state: the area text, the selected work type and the last
  computed price (`null` at first);
- the "calculate" handler. It raises a "fill in all fields" error toast when
  the area or the work type is empty. Otherwise it looks up the first catalog
  entry with exactly that title and sets the price to the parsed area times
  that entry's unit price. A title that no entry carries changes nothing and
  raises nothing;
- the contact-form handler, which only shows an acknowledgement toast;
- the work-type selector, which offers the catalog titles, and the result
  panel, which is shown whenever a price is present.

The model is functional. `Catalog` holds the immutable catalog and the
first-match lookup. `Calculator` holds the state record and the two handlers
as pure step functions returning the new state and the toast raised.
`Page` replays a sequence of user actions (typing an area, choosing a work
type, pressing calculate, submitting the contact form) from the initial
state. `Wrappers` holds the `Option` type used for the nullable price.

`parseFloat` belongs to the JavaScript runtime and is not part of this model.
Every handler that needs it takes it as a parameter `parse: string -> real`.
JavaScript numbers are modelled as Dafny `real`.

The estimator does not round, prices a zero or negative area like any other,
and ignores a work type that no entry carries without raising anything;
`NoAreaValidation` and `UnknownWorkTypeIsSilent` state this.

## Model

| member | source | states |
|---|---|---|
| Catalog.Services | src/pages/Index.tsx:17-39 | the catalog has exactly three entries with pairwise-distinct titles and strictly positive unit prices 3500, 2800 and 4200 |
| Catalog.FindFrom | src/pages/Index.tsx:90 | a scan from a start position returns the first position at or after it whose title equals the requested one, or none when no later entry has that title |
| Catalog.Find | src/pages/Index.tsx:90 | lookup finds an entry exactly when some entry carries the title (case-sensitive equality), and what it finds is the first such entry |
| Catalog.FirstMatchUnique | src/pages/Index.tsx:90 | at most one position is the first match for a title, so the lookup is deterministic |
| Catalog.DistinctTitlesFindAny | src/pages/Index.tsx:90 | in a catalog with distinct titles, any entry carrying the title is the one found |
| Catalog.HasTitleTransfer | src/pages/Index.tsx:90 | a title carried by some entry of one catalog is carried by any catalog containing all of its entries |
| Catalog.FindOrderIndependent | src/pages/Index.tsx:90 | for two distinct-title catalogs with the same entries, lookup finds the same entry in both, whatever the order |
| Catalog.Options | src/pages/Index.tsx:232-236 | the selector offers one option per catalog entry, in catalog order, labelled with its title |
| Catalog.OptionsAreFound | src/pages/Index.tsx:227-236 | every option the selector offers is found by the lookup, and the entry found carries that title |
| Calculator.PanelShown | src/pages/Index.tsx:254 | the result panel is rendered exactly when a price is present |
| Calculator.Init | src/pages/Index.tsx:13-15 | the estimator starts with empty area, empty work type and no price |
| Calculator.Calculate | src/pages/Index.tsx:80-95 | an empty input raises the error and leaves the price alone; otherwise no toast, and the first entry titled as selected sets the price to parsed area times its unit price; with no such entry the state is unchanged; area and work type are never changed |
| Calculator.Submit | src/pages/Index.tsx:97-103 | submitting the contact form raises the acknowledgement toast, not an error, and leaves area, work type and price unchanged |
| Calculator.CalculateDistinctCatalog | src/pages/Index.tsx:90-93 | in a distinct-title catalog with both inputs filled, whichever entry carries the selected title prices the area, without a toast, and the inputs stay as they were |
| Calculator.NoAreaValidation | src/pages/Index.tsx:91-93 | for any catalog and any entry found for the selected work type, an area parsing to zero or less is priced like any other: the price becomes parsed area times that entry's unit price, is not positive, and no error is raised |
| Calculator.UnknownWorkTypeIsSilent | src/pages/Index.tsx:90-94 | a filled-in work type that the selector does not offer leaves the state unchanged and raises no toast |
| Page.Apply | src/pages/Index.tsx:227-250 | editing an input changes only that input and never the price; only a calculation can raise the error, and then it changes nothing; the price changes only through a calculation that finds an entry, and such a calculation always leaves a price |
| Page.Run | src/pages/Index.tsx:80-103 | once a price is present no sequence of actions removes it; without a calculation the price is unchanged |
| Page.PanelShownIffPriced | src/pages/Index.tsx:254-264 | after a sequence of actions the result panel is shown exactly when it was shown before or some calculation in the sequence found a catalog entry |
| Page.PanelShownFromStart | src/pages/Index.tsx:254 | from the initial state the panel is shown exactly when some calculation found a catalog entry |
| Page.SelectorKeepsWorkTypeKnown | src/pages/Index.tsx:227-236 | if work types are chosen only through the selector, the selected work type is always empty or a catalog title |
| Page.CalculationThroughSelectorNeverSilent | src/pages/Index.tsx:227-236 | on the page, after any actions that choose work types through the selector, a calculation either raises the error or finds the selected entry and shows a price |

## Left out

- `parseFloat` semantics: parsing is the parameter `parse`; NaN and infinities are not modelled. The area input has `type="number"`, so the browser hands over either an empty string or a numeric text.
- Floating-point multiplication: the price is an exact `real` product. IEEE-754 rounding is not modelled.
- Toast contents, variants and the toast and state hooks: a toast is modelled only by which of the two it is, or none. Only the "fill in all fields" toast is an error.
- Price formatting with `toLocaleString` (src/pages/Index.tsx:173, 258): locale-dependent library formatting.
- Display-only catalog fields (description, icon, feature list): they take no part in pricing.
- The contact form's fields: they are uncontrolled inputs that hold no state the handler reads, and nothing is sent anywhere.
- The portfolio and review lists, the page layout, anchors and icons: static markup with no logic.
- The browser's form validation of the contact form's `required` fields: browser behaviour, outside the page's code.
