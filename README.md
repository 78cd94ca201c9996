# Lead tracking, modelled in Dafny

This project models the lead-tracking hook of a real-estate landing page
(`src/hooks/useLeadTracking.js`). The hook reads six UTM campaign parameters
from the page's query string once, when it runs. It then hands out three
tracking callbacks: button clicks, form submissions and form opens. Each
callback sends two analytics events, a general one and a source-specific
one. Every event is the object `{action, category, label, ...utmParams, ...extra}`.

Modules, one per part of the hook:

- `Wrappers` (`wrappers.dfy`): the `Option` type. `None` stands for
  JavaScript `null`/`undefined`.
- `Normalizer` (`normalizer.dfy`): `normalize(str)`. It lower-cases the
  string, replaces each run of `_` and white space by one `_`, then trims.
- `Utm` (`utm.dfy`): `getParam` as a method with a loop, proved against a
  specification function; `getUTMParams` as a method over an optional query
  map (no map means no browser window).
- `LeadTracking` (`lead_tracking.dfy`): the event object as a map union
  (JavaScript spread: the right operand wins), the two label rules, the
  funnel-stage rule and the event pair of each callback. The analytics
  client is a class whose `Event` method appends to a log. The hook is a
  class `LeadTracker` that holds the UTM record read by its constructor.
  Its tracking methods append to the client's log.
- `LeadConstants` (`lead_constants.dfy`): `LEAD_SOURCES`, `PROPERTY_TYPES`,
  and what the hook does with them and with the overview section's call.

An event is a `map<string, JsValue>`, where `JsValue` is a string or `null`.
This keeps two things exact: the precedence of the spreads, and the
difference between the empty object `{}` (no window) and an object of six
`null`s (a window without UTM parameters).

Three details of the code shape the model:

- `normalize` trims after the replacement
  (`src/hooks/useLeadTracking.js:33-36`). By then no white space is left, so
  the trim removes nothing, and a leading or trailing blank ends up as `_`.
- Without a browser window, `getUTMParams` returns the empty object `{}`
  (`:8`), not six `null` fields.
- The UTM parameters are read once per hook invocation (`:43`), and all
  three callbacks share that record.

## Model

| member | source | states |
|---|---|---|
| Normalizer.LowerChar | src/hooks/useLeadTracking.js:34 | the result is never an ASCII capital; a capital becomes the lower-case letter at the same position of the alphabet; separators stay separators; other characters are unchanged |
| Normalizer.ToLower | src/hooks/useLeadTracking.js:34 | same length; no capitals left; each capital becomes the lower-case letter at the same position of the alphabet; each position keeps its separator status; non-capitals unchanged |
| Normalizer.CollapseSeparators | src/hooks/useLeadTracking.js:35 | replacing each run of `_` and white space by one `_` never lengthens the string |
| Normalizer.CollapseEnds | src/hooks/useLeadTracking.js:35 | collapsing never lengthens; the result is empty iff the input is; each end is `_` iff the input has a separator there, else the first or last character is kept |
| Normalizer.CollapseShape | src/hooks/useLeadTracking.js:35 | after collapsing there is no white space and no two adjacent `_`; every character of the result is `_` or occurs in the input, so no capital appears that the input lacked |
| Normalizer.CollapseKeepsLetters | src/hooks/useLeadTracking.js:35 | collapsing keeps every non-separator character, in order |
| Normalizer.CollapseAppend | src/hooks/useLeadTracking.js:35 | collapsing distributes over `a + b` whenever the cut is not inside a run of separators |
| Normalizer.CollapseFixedPoint | src/hooks/useLeadTracking.js:35 | a string without white space or doubled `_` collapses to itself |
| Normalizer.CollapseRun | src/hooks/useLeadTracking.js:35 | a non-empty run of separators collapses to exactly `_` |
| Normalizer.TrimStartDrops | src/hooks/useLeadTracking.js:36 | the leading trim drops a prefix made only of white space and stops at the first other character |
| Normalizer.TrimEndDrops | src/hooks/useLeadTracking.js:36 | the trailing trim drops a suffix made only of white space and stops at the last other character |
| Normalizer.Trim | src/hooks/useLeadTracking.js:36 | `trim` never lengthens, and the result is empty or has no white space at either end |
| Normalizer.TrimSlice | src/hooks/useLeadTracking.js:36 | `trim` keeps one contiguous slice of the string and everything it drops before and after that slice is white space |
| Normalizer.TrimUnchanged | src/hooks/useLeadTracking.js:36 | `trim` leaves a string alone when neither end is white space |
| Normalizer.Normalize | src/hooks/useLeadTracking.js:32-37 | the result has no capitals, no white space and no doubled `_`; it equals collapse(lower(input)), so the final trim changes nothing |
| Normalizer.NormalizeEnds | src/hooks/useLeadTracking.js:32-37 | `null`, `undefined` and `""`, and only they, give `""`; a separator at either end of the input gives `_` at that end |
| Normalizer.NormalizeNormal | src/hooks/useLeadTracking.js:32-37 | a string already in normal shape normalizes to itself |
| Normalizer.NormalizeIdempotent | src/hooks/useLeadTracking.js:32-37 | normalizing twice gives the same result as normalizing once |
| Normalizer.ToLowerAppend | src/hooks/useLeadTracking.js:34 | lower-casing distributes over concatenation |
| Normalizer.NormalizeAppend | src/hooks/useLeadTracking.js:32-37 | normalizing distributes over `a + b` when the cut is not inside a run of separators |
| Normalizer.NormalizeCapitalized | src/hooks/useLeadTracking.js:32-37 | a capital followed by any string already in normal form normalizes to the lowered capital followed by that string |
| Normalizer.NormalizeRun | src/hooks/useLeadTracking.js:35 | any non-empty run of `_` and blanks normalizes to `_` |
| Normalizer.NormalizeEnquireNow | src/hooks/useLeadTracking.js:32-37 | `normalize("Enquire   Now")` is `enquire_now` |
| Normalizer.NormalizeMixedRun | src/hooks/useLeadTracking.js:32-37 | `normalize("A_B  C")` is `a_b_c` |
| Utm.Get | src/hooks/useLeadTracking.js:13 | `urlParams.get(key)` is present iff the key is in the query, and then it is the key's value |
| Utm.Truthy | src/hooks/useLeadTracking.js:14 | a looked-up value is falsy exactly when it is missing (`null`) or the empty string |
| Utm.FirstTruthy | src/hooks/useLeadTracking.js:11-17 | the result is present iff some key has a non-empty value; if present, it is the value of the first such key, and every earlier key is absent or empty |
| Utm.GetParam | src/hooks/useLeadTracking.js:11-17 | the loop with early return computes exactly `FirstTruthy` |
| Utm.TwoKeyLookup | src/hooks/useLeadTracking.js:19-26 | with two keys: the snake_case value if non-empty, else the camelCase value if non-empty, else `null` |
| Utm.UtmRecord | src/hooks/useLeadTracking.js:19-26 | the returned object has exactly the six UTM keys, each holding its looked-up value or `null` |
| Utm.GetUTMParams | src/hooks/useLeadTracking.js:7-27 | without a window the result is `{}`; with one, all six fields are present and each is resolved by the two-key rule; the keys are always among the six UTM names |
| Utm.CamelCaseOnly | src/hooks/useLeadTracking.js:19-26 | for each of the six fields: when the snake_case key is missing or empty and the camelCase key has a value, that value appears under the snake_case field |
| LeadTracking.Payload | src/hooks/useLeadTracking.js:48-54 | the keys are the three leading keys plus the UTM and extra keys; `extra` wins over the UTM fields, which win over action, category and label |
| LeadTracking.Context | src/hooks/useLeadTracking.js:84-87 | the context object has exactly the keys `lead_source`, `property_type` and `funnel_stage`, holding the raw source, the property type or `null`, and the stage |
| LeadTracking.FieldsDisjoint | src/hooks/useLeadTracking.js:48-54 | the UTM keys, the three leading keys and the context keys are pairwise disjoint |
| LeadTracking.PayloadIsLeadEvent | src/hooks/useLeadTracking.js:48-54 | an event built from a UTM record and the context object holds every field exactly as passed, and nothing else |
| LeadTracking.Label | src/hooks/useLeadTracking.js:80 | the label starts with the source; it equals the source iff the property type is falsy, else the rest is ` - ` and the property type |
| LeadTracking.Contains | src/hooks/useLeadTracking.js:145 | `includes` holds iff the needle occurs at some index of the string |
| LeadTracking.FormOpenLabel | src/hooks/useLeadTracking.js:144-147 | the label is the bare source iff the property type is falsy or its normalized form occurs in the normalized source; otherwise it is the click/submission label |
| LeadTracking.FormOpenOmitsContained | src/hooks/useLeadTracking.js:144-147 | a source that contains the property type, with cuts that normalize apart, keeps the bare source as its form-open label |
| LeadTracking.SubmissionStage | src/hooks/useLeadTracking.js:117-118 | the stage is one of the funnel stages; it is `lead` iff the raw form type is exactly `contact_form`, and `site_visit_request` for every other form type |
| LeadTracking.EventPair | src/hooks/useLeadTracking.js:83-99 | two events, general then specific; both carry the same label, raw source, property type, stage and UTM fields; the specific action is normalize(source) + `_` + the general action, and the category gets ` - Specific` |
| LeadTracking.ButtonClickEvents | src/hooks/useLeadTracking.js:76-102 | a lead pair with action normalize(action), category `Button Click`, the click label and stage `interest` |
| LeadTracking.FormSubmissionEvents | src/hooks/useLeadTracking.js:107-135 | a lead pair with action normalize(formType) + `_submit`, category `Form Submission`, the click label and the submission stage |
| LeadTracking.FormOpenEvents | src/hooks/useLeadTracking.js:140-169 | a lead pair with action normalize(formType) + `_opened`, category `Form Interaction`, the form-open label and stage `consideration` |
| LeadTracking.PairSharesContext | src/hooks/useLeadTracking.js:83-99 | both events of a pair have the same keys and agree on every field except action and category |
| LeadTracking.Analytics.constructor | src/hooks/useLeadTracking.js:48 | the analytics client starts with no event sent |
| LeadTracking.Analytics.Event | src/hooks/useLeadTracking.js:48 | sending an event appends exactly that event to the log |
| LeadTracking.LeadTracker.constructor | src/hooks/useLeadTracking.js:42-43 | running the hook reads the UTM record once: `{}` without a window, else the six resolved fields |
| LeadTracking.LeadTracker.TrackGeneralEvent | src/hooks/useLeadTracking.js:46-57 | appends one event, the merge of the leading fields, the stored UTM record and `extra` |
| LeadTracking.LeadTracker.TrackSpecificEvent | src/hooks/useLeadTracking.js:60-71 | appends one event built exactly like the general one |
| LeadTracking.LeadTracker.TrackButtonClick | src/hooks/useLeadTracking.js:76-102 | appends exactly the two click events to the log and changes nothing already in it |
| LeadTracking.LeadTracker.TrackFormSubmission | src/hooks/useLeadTracking.js:107-135 | appends exactly the two submission events and changes nothing already in the log |
| LeadTracking.LeadTracker.TrackFormOpen | src/hooks/useLeadTracking.js:140-169 | appends exactly the two form-open events and changes nothing already in the log |
| LeadConstants.LeadSourcesDistinct | src/hooks/useLeadTracking.js:181-194 | no two `LEAD_SOURCES` names share a value |
| LeadConstants.PropertyTypesDistinct | src/hooks/useLeadTracking.js:196-203 | no two `PROPERTY_TYPES` names share a value |
| LeadConstants.PricingSourcesNameTheirType | src/hooks/useLeadTracking.js:181-203 | each `PRICING_*` source is `pricing_` followed by the matching `PROPERTY_TYPES` value |
| LeadConstants.PricingOpenLabel | src/hooks/useLeadTracking.js:144-147 | `pricing_` + t opened with property type t keeps the bare source as its label, for any t that starts with a non-separator |
| LeadConstants.PricingOpenLabels | src/hooks/useLeadTracking.js:181-203 | every property type, opened on its pricing source, gives the bare source as the label |
| LeadConstants.StudySourceContainsPlainType | src/hooks/useLeadTracking.js:189-201 | `pricing_4BHKstudy` opened with `4BHK` also gives the bare source |
| LeadConstants.OpenLabelAppendsAbsentType | src/hooks/useLeadTracking.js:144-147 | a property type whose first character is neither a separator nor a capital, and occurs nowhere in an already-normal source, is appended to the form-open label as ` - ` and the type |
| LeadConstants.OverviewOpenLabel | src/hooks/useLeadTracking.js:144-147 | opening a form on `LEAD_SOURCES.OVERVIEW` with `PROPERTY_TYPES.BHK1` gives the label `overview_section - 1BHK` |
| LeadConstants.ContactFormSpelling | src/hooks/useLeadTracking.js:117-118 | `Contact Form` normalizes to `contact_form`, but its submission stage is `site_visit_request` |
| LeadConstants.OverviewClick | src/sections/Overview.jsx:44 | the source is `LEAD_SOURCES.OVERVIEW`; the overview call-to-action sends `enquire_now` and `overview_section_enquire_now`, both labelled `overview_section - Overview Section CTA`, and both with the raw source as `lead_source` |

## Left out

- React: `useCallback` memoisation and re-rendering are not modelled. One
  hook invocation is one `LeadTracker` object, and the returned callbacks
  (`:171-175`) are its methods.
- `ReactGA.event` transport and delivery are not modelled. Sending an event
  only appends it to the client's log.
- `window.location` and `URLSearchParams` parsing, percent-decoding and
  duplicate keys are not modelled. The query is an abstract key-to-value map,
  and a missing window is `None`.
- Normalizer.LowerChar: lowers only the ASCII capitals `A`-`Z`, whereas
  JavaScript's `toLowerCase` also lowers other Unicode letters.
- Strings are sequences of Dafny characters, not UTF-16 code units, so
  surrogate pairs are not modelled. White space is the full set matched by
  `\s`.
- `source`, `action` and `formType` are strings. The template literals would
  render a `null` or `undefined` there as the words `null` and `undefined`;
  that case is not modelled. `propertyType` is a string or `null`; truthy
  non-string values are not modelled.
- The default `extra = {}` of the two senders (`:47`, `:61`) is not
  modelled, because every caller in the hook passes `extra`.
- JavaScript object key order is not modelled: an event is a map. The two
  equal context objects each callback builds are one value in the model.
- The markup, styling and modal callback of `src/sections/Overview.jsx`
  are not modelled; only its tracking call is used, as an example.
