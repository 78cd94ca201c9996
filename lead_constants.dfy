/**
  The lead sources and property types the pages pass to the tracking hook,
  and what the hook makes of some of them and of the calls the pages make.
 */
module LeadConstants {
  import opened Wrappers
  import opened Utm
  import opened Normalizer
  import opened LeadTracking

  /** `LEAD_SOURCES`: the place on the page a lead came from. */
  const LeadSources: map<string, string> := map[
    "HERO" := "hero_banner",
    "OVERVIEW" := "overview_section",
    "PRICING_1BHK" := "pricing_1BHK",
    "PRICING_2BHK" := "pricing_2BHK",
    "PRICING_3BHK2T" := "pricing_3BHK2T",
    "PRICING_3BHK3T" := "pricing_3BHK3T",
    "PRICING_4BHK" := "pricing_4BHK",
    "PRICING_4BHKSTUDY" := "pricing_4BHKstudy",
    "MASTER_PLAN" := "master_plan_section",
    "FOOTER" := "footer_section",
    "CONTACT_FORM_LINK" := "contact_form_internal_link",
    "UNKNOWN" := "unknown_source"
  ]

  /** `PROPERTY_TYPES`: the apartment configurations on offer. */
  const PropertyTypes: map<string, string> := map[
    "BHK1" := "1BHK",
    "BHK2" := "2BHK",
    "BHK32T" := "3BHK2T",
    "BHK33T" := "3BHK3T",
    "BHK4" := "4BHK",
    "BHK4STUDY" := "4BHKstudy"
  ]

  /** No two property types share a value. */
  lemma PropertyTypesDistinct()
    ensures forall k1, k2 :: k1 in PropertyTypes && k2 in PropertyTypes && PropertyTypes[k1] == PropertyTypes[k2] ==> k1 == k2
  {
  }

  /** No two lead sources share a value. */
  lemma LeadSourcesDistinct()
    ensures forall k1, k2 :: k1 in LeadSources && k2 in LeadSources && LeadSources[k1] == LeadSources[k2] ==> k1 == k2
  {
  }

  /** Each pricing source is `pricing_` followed by the property type it
      advertises. */
  lemma PricingSourcesNameTheirType()
    ensures LeadSources["PRICING_1BHK"] == "pricing_" + PropertyTypes["BHK1"]
    ensures LeadSources["PRICING_2BHK"] == "pricing_" + PropertyTypes["BHK2"]
    ensures LeadSources["PRICING_3BHK2T"] == "pricing_" + PropertyTypes["BHK32T"]
    ensures LeadSources["PRICING_3BHK3T"] == "pricing_" + PropertyTypes["BHK33T"]
    ensures LeadSources["PRICING_4BHK"] == "pricing_" + PropertyTypes["BHK4"]
    ensures LeadSources["PRICING_4BHKSTUDY"] == "pricing_" + PropertyTypes["BHK4STUDY"]
  {
  }

  /** A pricing source opened with the property type it names keeps the bare
      source as its form-open label. */
  lemma {:induction false} PricingOpenLabel(propertyType: string)
    requires propertyType != [] && !IsSeparator(propertyType[0])
    ensures FormOpenLabel("pricing_" + propertyType, Some(propertyType)) == "pricing_" + propertyType
  {
    assert "pricing_" + propertyType + [] == "pricing_" + propertyType;
    FormOpenOmitsContained("pricing_", propertyType, []);
  }

  /** Opening a form on a pricing source with the property type that source
      advertises gives the bare source as the label, for every property type. */
  lemma PricingOpenLabels()
    ensures forall k :: k in PropertyTypes ==>
      FormOpenLabel("pricing_" + PropertyTypes[k], Some(PropertyTypes[k])) == "pricing_" + PropertyTypes[k]
  {
    forall k | k in PropertyTypes
      ensures FormOpenLabel("pricing_" + PropertyTypes[k], Some(PropertyTypes[k])) == "pricing_" + PropertyTypes[k]
    {
      var t := PropertyTypes[k];
      assert t != [] && '1' <= t[0] <= '4';
      PricingOpenLabel(t);
    }
  }

  /** A property type whose first character appears nowhere in an
      already-normal source is appended to the form-open label. */
  lemma {:induction false} OpenLabelAppendsAbsentType(source: string, propertyType: string)
    requires IsNormal(source)
    requires propertyType != [] && !IsSeparator(propertyType[0]) && !IsUpper(propertyType[0])
    requires propertyType[0] !in source
    ensures FormOpenLabel(source, Some(propertyType)) == source + " - " + propertyType
  {
    NormalizeNormal(source);
    var lowered := ToLower(propertyType);
    var t := CollapseSeparators(lowered);
    CollapseEnds(lowered);
    assert t != [] && t[0] == propertyType[0];
    assert forall i :: !OccursAt(source, t, i);
  }

  lemma OverviewTypePieces()
    ensures LeadSources["OVERVIEW"] == "overview_section" && PropertyTypes["BHK1"] == "1BHK"
  {
  }

  /** Opening a form on the overview section (`LEAD_SOURCES.OVERVIEW`) with
      the 1BHK type (`PROPERTY_TYPES.BHK1`) gives `overview_section - 1BHK`:
      the type does not occur in the source, so it is appended. */
  lemma OverviewOpenLabel(source: string, propertyType: string)
    requires source == "overview_section" && propertyType == "1BHK"
    ensures source == LeadSources["OVERVIEW"] && propertyType == PropertyTypes["BHK1"]
    ensures FormOpenLabel(source, Some(propertyType)) == source + " - " + propertyType
  {
    OverviewTypePieces();
    OverviewSourceNormal();
    assert propertyType[0] == '1' && '1' !in source;
    OpenLabelAppendsAbsentType(source, propertyType);
  }

  /** The 4BHK-with-study source also contains the plain 4BHK type, so
      opening a form there with the 4BHK type leaves the label bare too. */
  lemma StudySourceContainsPlainType()
    ensures FormOpenLabel("pricing_4BHKstudy", Some("4BHK")) == "pricing_4BHKstudy"
  {
    assert "pricing_4BHKstudy" == "pricing_" + "4BHK" + "study";
    FormOpenOmitsContained("pricing_", "4BHK", "study");
  }

  lemma ContactFormPieces()
    ensures "Contact Form" == (['C'] + "ontact") + (" " + (['F'] + "orm"))
    ensures "contact_form" == (['c'] + "ontact") + ("_" + (['f'] + "orm"))
  {
  }

  /** The submission stage tests the raw form type: a form type spelled
      `Contact Form` normalizes to `contact_form`, yet its submission is
      reported as a site-visit request rather than a lead. */
  lemma ContactFormSpelling(formType: string)
    requires formType == "Contact Form"
    ensures Normalize(Some(formType)) == "contact_form"
    ensures SubmissionStage(formType) == "site_visit_request"
  {
    var contact, form := "ontact", "orm";
    assert IsNormal(contact) && IsNormal(form);
    NormalizeCapitalized('C', contact);
    NormalizeCapitalized('F', form);
    NormalizeAppend(" ", ['F'] + form);
    assert Normalize(Some(" ")) == "_";
    ContactFormPieces();
    NormalizeAppend(['C'] + contact, " " + (['F'] + form));
  }

  lemma OverviewPieces()
    ensures "overview_section_enquire_now" == "overview_section" + "_" + "enquire_now"
    ensures "overview_section - Overview Section CTA" == "overview_section" + " - " + "Overview Section CTA"
  {
  }

  lemma OverviewSourceNormal()
    ensures IsNormal("overview_section")
  {
  }

  lemma EnquireNormal()
    ensures IsNormal("enquire_now")
  {
  }

  /** The call-to-action of the overview section (`LEAD_SOURCES.OVERVIEW`),
      which passes a description of the call-to-action (`Overview Section
      CTA`) where a property type is expected: the general action is
      `enquire_now`, the specific one `overview_section_enquire_now`, the
      description is appended to the label of both events, and both carry
      the raw source as `lead_source`. */
  lemma OverviewClick(utm: Record, source: string, action: string, cta: string)
    requires utm.Keys <= UtmFields
    requires source == "overview_section" && action == "enquire_now" && cta == "Overview Section CTA"
    ensures source == LeadSources["OVERVIEW"]
    ensures var events := ButtonClickEvents(utm, source, action, Some(cta));
            && events[0]["action"] == Str("enquire_now")
            && events[1]["action"] == Str("overview_section_enquire_now")
            && events[0]["label"] == events[1]["label"] == Str("overview_section - Overview Section CTA")
            && events[0]["lead_source"] == events[1]["lead_source"] == Str("overview_section")
  {
    OverviewTypePieces();
    OverviewPieces();
    OverviewSourceNormal();
    EnquireNormal();
    NormalizeNormal(source);
    NormalizeNormal(action);
  }
}
