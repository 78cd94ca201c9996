/**
  The lead-tracking hook. Every tracking call sends two analytics events
  through the analytics client: a general one and a source-specific one. Both
  are built the same way, as the object
  `{action, category, label, ...utmParams, ...extra}`, where `extra` carries
  the lead source, the property type and the funnel stage.
 */
module LeadTracking {
  import opened Wrappers
  import opened Utm
  import opened Normalizer

  /** The keys the hook writes before the spreads. */
  const EventFields: set<string> := {"action", "category", "label"}

  /** The keys of the `extra` object every tracking call passes. */
  const ContextFields: set<string> := {"lead_source", "property_type", "funnel_stage"}

  /** The funnel stages the hook reports. */
  const FunnelStages: set<string> := {"interest", "consideration", "lead", "site_visit_request"}

  /** The event object `{action, category, label, ...utm, ...extra}`: a later
      spread wins on a clashing key, so `extra` overrides the UTM fields, which
      override the three leading fields. */
  function Payload(action: string, category: string, eventLabel: string, utm: Record, extra: Record): (r: Record)
    ensures r.Keys == EventFields + utm.Keys + extra.Keys
    ensures forall k :: k in extra ==> r[k] == extra[k]
    ensures forall k :: k in utm && k !in extra ==> r[k] == utm[k]
    ensures "action" !in utm && "action" !in extra ==> r["action"] == Str(action)
    ensures "category" !in utm && "category" !in extra ==> r["category"] == Str(category)
    ensures "label" !in utm && "label" !in extra ==> r["label"] == Str(eventLabel)
  {
    map["action" := Str(action), "category" := Str(category), "label" := Str(eventLabel)] + utm + extra
  }

  /** The `extra` object: `{lead_source, property_type, funnel_stage}`. */
  function Context(source: string, propertyType: Option<string>, stage: string): (r: Record)
    ensures r.Keys == ContextFields
    ensures r["lead_source"] == Str(source) && r["property_type"] == JsOf(propertyType)
    ensures r["funnel_stage"] == Str(stage)
  {
    map["lead_source" := Str(source), "property_type" := JsOf(propertyType), "funnel_stage" := Str(stage)]
  }

  /** The UTM keys, the leading keys and the `extra` keys never clash. */
  lemma FieldsDisjoint()
    ensures UtmFields !! EventFields && UtmFields !! ContextFields && EventFields !! ContextFields
  {
  }

  /** The label of clicks and submissions: the source, followed by
      ` - propertyType` when the property type is truthy. */
  function Label(source: string, propertyType: Option<string>): (r: string)
    ensures |source| <= |r| && r[..|source|] == source
    ensures r == source <==> !Truthy(propertyType)
    ensures Truthy(propertyType) ==> r[|source|..] == " - " + propertyType.value
  {
    if Truthy(propertyType) then source + " - " + propertyType.value else source
  }

  /** `t` occurs in `s` starting at index `i`. */
  ghost predicate OccursAt(s: string, t: string, i: int) {
    0 <= i && i + |t| <= |s| && s[i..i + |t|] == t
  }

  lemma OccursShift(s: string, t: string, i: int)
    requires s != [] && 0 <= i
    ensures OccursAt(s[1..], t, i) <==> OccursAt(s, t, i + 1)
  {
    if 0 <= i && i + |t| <= |s| - 1 {
      assert s[1..][i..i + |t|] == s[i + 1..i + 1 + |t|];
    }
  }

  /** `s.includes(t)`: `t` occurs in `s` as a contiguous substring. */
  function Contains(s: string, t: string): (r: bool)
    ensures r <==> exists i :: OccursAt(s, t, i)
  {
    if |t| <= |s| && s[..|t|] == t then
      assert OccursAt(s, t, 0);
      true
    else if s == [] then false
    else
      var r := Contains(s[1..], t);
      assert !OccursAt(s, t, 0);
      forall i | 0 <= i ensures OccursAt(s[1..], t, i) <==> OccursAt(s, t, i + 1) {
        OccursShift(s, t, i);
      }
      assert forall i :: OccursAt(s, t, i) ==> i == 0 || OccursAt(s[1..], t, i - 1);
      r
  }

  /** The label of form opens: the property type is appended only when it is
      truthy and its normalized form does not already occur in the normalized
      source. Otherwise the label is the source alone. */
  function FormOpenLabel(source: string, propertyType: Option<string>): (r: string)
    ensures r == source <==> !Truthy(propertyType) || Contains(Normalize(Some(source)), Normalize(propertyType))
    ensures r == Label(source, propertyType) <==> !Truthy(propertyType) || !Contains(Normalize(Some(source)), Normalize(propertyType))
  {
    var normalizedSource := Normalize(Some(source));
    if Truthy(propertyType) && !Contains(normalizedSource, Normalize(propertyType))
    then source + " - " + propertyType.value
    else source
  }

  /** A form-open label stays the bare source whenever the property type
      occurs in the source at a place where normalizing the two parts
      separately gives the same result as normalizing the whole. */
  lemma FormOpenOmitsContained(before: string, t: string, after: string)
    requires t != []
    requires before == [] || !IsSeparator(before[|before| - 1]) || !IsSeparator(t[0])
    requires after == [] || !IsSeparator(t[|t| - 1]) || !IsSeparator(after[0])
    ensures FormOpenLabel(before + t + after, Some(t)) == before + t + after
  {
    var bt := before + t;
    assert bt[|bt| - 1] == t[|t| - 1];
    NormalizeAppend(before, t);
    NormalizeAppend(bt, after);
    var nb, nt, na := Normalize(Some(before)), Normalize(Some(t)), Normalize(Some(after));
    var whole := nb + nt + na;
    assert Normalize(Some(before + t + after)) == whole;
    assert whole[|nb|..|nb| + |nt|] == nt;
    assert OccursAt(whole, nt, |nb|);
  }

  /** The funnel stage of a submission. It tests the raw form type, not its
      normalized form. */
  function SubmissionStage(formType: string): (stage: string)
    ensures stage in FunnelStages
    ensures stage == "lead" <==> formType == "contact_form"
    ensures formType != "contact_form" ==> stage == "site_visit_request"
  {
    if formType == "contact_form" then "lead" else "site_visit_request"
  }

  /** One emitted event: the three leading fields, every UTM field unchanged,
      and the three context fields; nothing else. */
  ghost predicate IsLeadEvent(e: Record, utm: Record, action: string, category: string, eventLabel: string,
                              source: string, propertyType: Option<string>, stage: string)
  {
    && e.Keys == EventFields + utm.Keys + ContextFields
    && e["action"] == Str(action) && e["category"] == Str(category) && e["label"] == Str(eventLabel)
    && e["lead_source"] == Str(source) && e["property_type"] == JsOf(propertyType)
    && e["funnel_stage"] == Str(stage)
    && forall k :: k in utm ==> e[k] == utm[k]
  }

  /** An event built by the hook, `{action, category, label, ...utm, ...extra}`
      with a UTM record and the context object, holds every field as written:
      no spread overrides another, because the three key sets are disjoint. */
  lemma PayloadIsLeadEvent(action: string, category: string, eventLabel: string, utm: Record,
                           source: string, propertyType: Option<string>, stage: string)
    requires utm.Keys <= UtmFields
    ensures IsLeadEvent(Payload(action, category, eventLabel, utm, Context(source, propertyType, stage)),
                        utm, action, category, eventLabel, source, propertyType, stage)
  {
    FieldsDisjoint();
  }

  /** The two events of one tracking call: the general event, then the
      specific event, whose action is the normalized source joined to the
      general action by `_` and whose category is the general category
      followed by ` - Specific`. Everything else is shared. */
  ghost predicate IsLeadPair(events: seq<Record>, utm: Record, action: string, category: string, eventLabel: string,
                             source: string, propertyType: Option<string>, stage: string)
  {
    && |events| == 2
    && IsLeadEvent(events[0], utm, action, category, eventLabel, source, propertyType, stage)
    && IsLeadEvent(events[1], utm, Normalize(Some(source)) + "_" + action, category + " - Specific",
                   eventLabel, source, propertyType, stage)
  }

  /** The two events of one tracking call, general then specific: both are
      built from the same label and context, and the specific one is
      distinguished by an action prefixed with the normalized source and by
      its own category. */
  function EventPair(utm: Record, action: string, category: string, eventLabel: string,
                     source: string, propertyType: Option<string>, stage: string): (events: seq<Record>)
    requires utm.Keys <= UtmFields
    ensures IsLeadPair(events, utm, action, category, eventLabel, source, propertyType, stage)
  {
    var extra := Context(source, propertyType, stage);
    var specificCategory := category + " - Specific";
    PayloadIsLeadEvent(action, category, eventLabel, utm, source, propertyType, stage);
    PayloadIsLeadEvent(Normalize(Some(source)) + "_" + action, specificCategory, eventLabel, utm, source, propertyType, stage);
    [Payload(action, category, eventLabel, utm, extra),
     Payload(Normalize(Some(source)) + "_" + action, specificCategory, eventLabel, utm, extra)]
  }

  /** The events of `trackButtonClick(source, action, propertyType)`. */
  function ButtonClickEvents(utm: Record, source: string, action: string, propertyType: Option<string>): (events: seq<Record>)
    requires utm.Keys <= UtmFields
    ensures IsLeadPair(events, utm, Normalize(Some(action)), "Button Click", Label(source, propertyType),
                       source, propertyType, "interest")
  {
    EventPair(utm, Normalize(Some(action)), "Button Click", Label(source, propertyType),
              source, propertyType, "interest")
  }

  /** The events of `trackFormSubmission(source, formType, propertyType)`. */
  function FormSubmissionEvents(utm: Record, source: string, formType: string, propertyType: Option<string>): (events: seq<Record>)
    requires utm.Keys <= UtmFields
    ensures IsLeadPair(events, utm, Normalize(Some(formType)) + "_submit", "Form Submission",
                       Label(source, propertyType), source, propertyType, SubmissionStage(formType))
  {
    EventPair(utm, Normalize(Some(formType)) + "_submit", "Form Submission",
              Label(source, propertyType), source, propertyType, SubmissionStage(formType))
  }

  /** The events of `trackFormOpen(source, formType, propertyType)`. */
  function FormOpenEvents(utm: Record, source: string, formType: string, propertyType: Option<string>): (events: seq<Record>)
    requires utm.Keys <= UtmFields
    ensures IsLeadPair(events, utm, Normalize(Some(formType)) + "_opened", "Form Interaction",
                       FormOpenLabel(source, propertyType), source, propertyType, "consideration")
  {
    EventPair(utm, Normalize(Some(formType)) + "_opened", "Form Interaction",
              FormOpenLabel(source, propertyType), source, propertyType, "consideration")
  }

  /** Both events of a pair carry the same keys and agree on every field
      except the action and the category. */
  lemma PairSharesContext(events: seq<Record>, utm: Record, action: string, category: string, eventLabel: string,
                          source: string, propertyType: Option<string>, stage: string)
    requires IsLeadPair(events, utm, action, category, eventLabel, source, propertyType, stage)
    ensures events[0].Keys == events[1].Keys
    ensures forall k :: k in events[0] && k != "action" && k != "category" ==> events[0][k] == events[1][k]
  {
  }

  /** The analytics client: every `event(payload)` call is appended to the
      log of sent events. */
  class Analytics {
    var events: seq<Record>

    constructor ()
      ensures events == []
    {
      events := [];
    }

    method Event(payload: Record)
      modifies this
      ensures events == old(events) + [payload]
    {
      events := events + [payload];
    }
  }

  /** What one invocation of the hook returns: the tracking callbacks, which
      share the UTM record read once when the hook ran. */
  class LeadTracker {
    const ga: Analytics
    const utmParams: Record

    ghost predicate Valid() {
      utmParams.Keys <= UtmFields
    }

    /** Runs the hook: reads the UTM parameters of the current page. */
    constructor (ga: Analytics, window: Option<Query>)
      ensures this.ga == ga && Valid()
      ensures window.None? ==> utmParams == map[]
      ensures window.Some? ==> ResolvedFrom(utmParams, window.value)
    {
      this.ga := ga;
      var utm := GetUTMParams(window);
      utmParams := utm;
    }

    /** `trackGeneralEvent`: sends one event with the UTM fields merged in. */
    method TrackGeneralEvent(action: string, category: string, eventLabel: string, extra: Record)
      modifies ga
      ensures ga.events == old(ga.events) + [Payload(action, category, eventLabel, utmParams, extra)]
    {
      ga.Event(Payload(action, category, eventLabel, utmParams, extra));
    }

    /** `trackSpecificEvent`: built exactly like the general event. */
    method TrackSpecificEvent(action: string, category: string, eventLabel: string, extra: Record)
      modifies ga
      ensures ga.events == old(ga.events) + [Payload(action, category, eventLabel, utmParams, extra)]
    {
      ga.Event(Payload(action, category, eventLabel, utmParams, extra));
    }

    /** `trackButtonClick`: appends exactly the two click events and changes
        nothing else in the log. */
    method TrackButtonClick(source: string, action: string, propertyType: Option<string>)
      requires Valid()
      modifies ga
      ensures ga.events == old(ga.events) + ButtonClickEvents(utmParams, source, action, propertyType)
    {
      var normalizedSource := Normalize(Some(source));
      var normalizedAction := Normalize(Some(action));
      var eventLabel := Label(source, propertyType);
      var extra := Context(source, propertyType, "interest");
      assert "Button Click - Specific" == "Button Click" + " - Specific";
      TrackGeneralEvent(normalizedAction, "Button Click", eventLabel, extra);
      TrackSpecificEvent(normalizedSource + "_" + normalizedAction, "Button Click - Specific", eventLabel, extra);
    }

    /** `trackFormSubmission`: appends exactly the two submission events. */
    method TrackFormSubmission(source: string, formType: string, propertyType: Option<string>)
      requires Valid()
      modifies ga
      ensures ga.events == old(ga.events) + FormSubmissionEvents(utmParams, source, formType, propertyType)
    {
      var normalizedSource := Normalize(Some(source));
      var formAction := Normalize(Some(formType)) + "_submit";
      var eventLabel := Label(source, propertyType);
      var extra := Context(source, propertyType, SubmissionStage(formType));
      assert "Form Submission - Specific" == "Form Submission" + " - Specific";
      TrackGeneralEvent(formAction, "Form Submission", eventLabel, extra);
      TrackSpecificEvent(normalizedSource + "_" + formAction, "Form Submission - Specific", eventLabel, extra);
    }

    /** `trackFormOpen`: appends exactly the two form-open events. */
    method TrackFormOpen(source: string, formType: string, propertyType: Option<string>)
      requires Valid()
      modifies ga
      ensures ga.events == old(ga.events) + FormOpenEvents(utmParams, source, formType, propertyType)
    {
      var normalizedSource := Normalize(Some(source));
      var formAction := Normalize(Some(formType)) + "_opened";
      var eventLabel := FormOpenLabel(source, propertyType);
      var extra := Context(source, propertyType, "consideration");
      assert "Form Interaction - Specific" == "Form Interaction" + " - Specific";
      TrackGeneralEvent(formAction, "Form Interaction", eventLabel, extra);
      TrackSpecificEvent(normalizedSource + "_" + formAction, "Form Interaction - Specific", eventLabel, extra);
    }
  }
}
