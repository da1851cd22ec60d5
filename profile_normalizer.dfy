/** `transformToLinkedInProfile`: the pure mapping from the provider's raw
    record to the profile the rest of the application reads. Every string
    field defaults to `""`, every array to `[]`, optional fields are dropped
    when empty, and the profile URL is always the caller's. */
module ProfileNormalizer {
  import opened Wrappers
  import opened JsBuiltins
  import opened LinkedInTypes

  /** `` `${startsAt || ''} - ${endsAt || ''}`.trim() `` */
  function DateRange(startsAt: Option<string>, endsAt: Option<string>): string {
    Trim(OrElse(startsAt, "") + " - " + OrElse(endsAt, ""))
  }

  /** One entry of `data.experience.map(...)`. */
  function NormalizeExperience(exp: ProviderExperience): Experience {
    Experience(
      title := OrElse(exp.position, ""),
      company := OrElse(exp.companyName, ""),
      duration := OrElse(exp.duration, DateRange(exp.startsAt, exp.endsAt)),
      description := OrUndefined(exp.summary),
      location := OrUndefined(exp.location),
      companyUrl := OrUndefined(exp.companyUrl))
  }

  /** One entry of `data.education.map(...)`. */
  function NormalizeEducation(edu: ProviderEducation): Education {
    Education(
      school := OrElse(edu.school, ""),
      degree := OrElse(edu.degree, ""),
      fieldOfStudy := OrUndefined(edu.fieldOfStudy),
      duration := OrElse(Some(DateRange(edu.startsAt, edu.endsAt)), ""))
  }

  /** `transformToLinkedInProfile(data, originalUrl)` */
  function TransformToLinkedInProfile(data: ProviderProfile, originalUrl: string): Profile {
    Profile(
      name := OrElse(data.fullName, ""),
      headline := OrElse(data.headline, ""),
      location := OrElse(data.location, ""),
      about := OrElse(data.about, ""),
      experience := Map(NormalizeExperience, OrEmpty(data.experience)),
      education := Map(NormalizeEducation, OrEmpty(data.education)),
      skills := [],
      connections := OrUndefined(data.connections),
      followers := OrUndefined(data.followers),
      profileUrl := originalUrl,
      profilePhoto := OrUndefined(data.profilePhoto))
  }

  // ---------------------------------------------------------------------
  // What a normalised profile looks like

  /** An optional field as the normaliser leaves it: absent or non-empty. */
  predicate NeverEmpty(x: Option<string>) {
    x.None? || x.value != ""
  }

  ghost predicate IsNormalizedExperience(e: Experience) {
    && e.duration != ""
    && NeverEmpty(e.description) && NeverEmpty(e.location) && NeverEmpty(e.companyUrl)
  }

  ghost predicate IsNormalizedEducation(e: Education) {
    '-' in e.duration && NeverEmpty(e.fieldOfStudy)
  }

  /** The shape every normalised profile has. */
  ghost predicate IsNormalized(p: Profile) {
    && p.skills == []
    && (forall i :: 0 <= i < |p.experience| ==> IsNormalizedExperience(p.experience[i]))
    && (forall i :: 0 <= i < |p.education| ==> IsNormalizedEducation(p.education[i]))
    && NeverEmpty(p.connections) && NeverEmpty(p.followers) && NeverEmpty(p.profilePhoto)
  }

  /** The ` - ` between the two dates survives trimming, so a date range is
      never empty and always holds a `-`. */
  lemma DateRangeKeepsSeparator(startsAt: Option<string>, endsAt: Option<string>)
    ensures '-' in DateRange(startsAt, endsAt)
  {
    var s := OrElse(startsAt, "") + " - " + OrElse(endsAt, "");
    var k := |OrElse(startsAt, "")| + 1;
    assert s[k] == '-';
    TrimKeepsNonWhitespace(s, k);
  }

  /** An experience's duration is the provider's when that is non-empty and
      otherwise the date range; either way it is never empty. */
  lemma ExperienceDuration(exp: ProviderExperience)
    ensures var d := NormalizeExperience(exp).duration;
            && d != ""
            && (Truthy(exp.duration) ==> d == exp.duration.value)
            && (!Truthy(exp.duration) ==> d == DateRange(exp.startsAt, exp.endsAt) && '-' in d)
  {
    DateRangeKeepsSeparator(exp.startsAt, exp.endsAt);
  }

  /** An education's duration is the date range itself: the trailing
      `|| ''` never takes effect, because the range always holds a `-`. */
  lemma EducationDuration(edu: ProviderEducation)
    ensures NormalizeEducation(edu).duration == DateRange(edu.startsAt, edu.endsAt)
    ensures '-' in NormalizeEducation(edu).duration
  {
    DateRangeKeepsSeparator(edu.startsAt, edu.endsAt);
  }

  /** Whatever the provider sends: the profile URL is the caller's, skills
      are empty, the lists keep the provider's length and order, and every
      entry and optional field has the normalised shape. */
  lemma TransformIsNormalized(data: ProviderProfile, originalUrl: string)
    ensures var p := TransformToLinkedInProfile(data, originalUrl);
            && p.profileUrl == originalUrl
            && |p.experience| == |OrEmpty(data.experience)|
            && (forall i :: 0 <= i < |p.experience| ==> p.experience[i] == NormalizeExperience(OrEmpty(data.experience)[i]))
            && |p.education| == |OrEmpty(data.education)|
            && (forall i :: 0 <= i < |p.education| ==> p.education[i] == NormalizeEducation(OrEmpty(data.education)[i]))
            && IsNormalized(p)
  {
    var p := TransformToLinkedInProfile(data, originalUrl);
    forall i | 0 <= i < |p.experience|
      ensures IsNormalizedExperience(p.experience[i])
    {
      ExperienceDuration(OrEmpty(data.experience)[i]);
    }
    forall i | 0 <= i < |p.education|
      ensures IsNormalizedEducation(p.education[i])
    {
      EducationDuration(OrEmpty(data.education)[i]);
    }
  }

  /** A record with nothing in it: every field missing. */
  const EmptyRecord: ProviderProfile :=
    ProviderProfile(None, None, None, None, None, None, None, None, None, None, None, None, None)

  /** A record with every field missing gives empty strings and lists, no
      optional fields, and the caller's URL. */
  lemma EmptyRecordDefaults(originalUrl: string)
    ensures TransformToLinkedInProfile(EmptyRecord, originalUrl)
         == Profile("", "", "", "", [], [], [], None, None, originalUrl, None)
  {
  }

  // ---------------------------------------------------------------------
  // Lossless on present fields

  ghost predicate CompleteExperience(e: ProviderExperience) {
    && Truthy(e.position) && Truthy(e.companyName) && Truthy(e.duration)
    && Truthy(e.summary) && Truthy(e.location) && Truthy(e.companyUrl)
  }

  ghost predicate CompleteEducation(e: ProviderEducation) {
    Truthy(e.school) && Truthy(e.degree) && Truthy(e.fieldOfStudy)
  }

  /** Every field the normaliser copies is present and non-empty (the
      dates, which are folded into durations, may be anything). */
  ghost predicate CompleteRecord(data: ProviderProfile) {
    && Truthy(data.fullName) && Truthy(data.headline) && Truthy(data.location) && Truthy(data.about)
    && Truthy(data.connections) && Truthy(data.followers) && Truthy(data.profilePhoto)
    && data.experience.Some? && data.education.Some?
    && (forall i :: 0 <= i < |data.experience.value| ==> CompleteExperience(data.experience.value[i]))
    && (forall i :: 0 <= i < |data.education.value| ==> CompleteEducation(data.education.value[i]))
  }

  /** A complete record is carried over unchanged: every value the
      normaliser reads appears as is in the profile. */
  lemma CompleteRecordPreserved(data: ProviderProfile, originalUrl: string)
    requires CompleteRecord(data)
    ensures var p := TransformToLinkedInProfile(data, originalUrl);
            && p.name == data.fullName.value && p.headline == data.headline.value
            && p.location == data.location.value && p.about == data.about.value
            && p.connections == data.connections && p.followers == data.followers
            && p.profilePhoto == data.profilePhoto
            && |p.experience| == |data.experience.value|
            && (forall i :: 0 <= i < |p.experience| ==>
                  var e := data.experience.value[i];
                  p.experience[i] == Experience(e.position.value, e.companyName.value, e.duration.value,
                                                e.summary, e.location, e.companyUrl))
            && |p.education| == |data.education.value|
            && (forall i :: 0 <= i < |p.education| ==>
                  var e := data.education.value[i];
                  && p.education[i].school == e.school.value
                  && p.education[i].degree == e.degree.value
                  && p.education[i].fieldOfStudy == e.fieldOfStudy)
  {
  }

  /** The dates of an education entry are folded into one display string
      and cannot always be told apart again: two different entries give the
      same normalised entry. */
  lemma EducationDatesAmbiguous()
    ensures var a := ProviderEducation(Some("MIT"), Some("BSc"), None, Some("2018 - 2019"), Some("2020"));
            var b := ProviderEducation(Some("MIT"), Some("BSc"), None, Some("2018"), Some("2019 - 2020"));
            a != b && NormalizeEducation(a) == NormalizeEducation(b)
  {
    assert "2018 - 2019" + " - " + "2020" == "2018" + " - " + "2019 - 2020";
  }

  // ---------------------------------------------------------------------
  // Missing and empty are the same

  function CanonicalExperience(e: ProviderExperience): ProviderExperience {
    ProviderExperience(
      OrUndefined(e.position), OrUndefined(e.companyName), OrUndefined(e.companyUrl),
      OrUndefined(e.location), OrUndefined(e.summary), OrUndefined(e.startsAt),
      OrUndefined(e.endsAt), OrUndefined(e.duration))
  }

  function CanonicalEducation(e: ProviderEducation): ProviderEducation {
    ProviderEducation(
      OrUndefined(e.school), OrUndefined(e.degree), OrUndefined(e.fieldOfStudy),
      OrUndefined(e.startsAt), OrUndefined(e.endsAt))
  }

  /** The record with every empty string replaced by a missing value. */
  function CanonicalRecord(data: ProviderProfile): ProviderProfile {
    ProviderProfile(
      OrUndefined(data.fullName), OrUndefined(data.firstName), OrUndefined(data.lastName),
      OrUndefined(data.publicIdentifier), OrUndefined(data.backgroundCoverImageUrl),
      OrUndefined(data.profilePhoto), OrUndefined(data.headline), OrUndefined(data.location),
      OrUndefined(data.followers), OrUndefined(data.connections), OrUndefined(data.about),
      if data.experience.Some? then Some(Map(CanonicalExperience, data.experience.value)) else None,
      if data.education.Some? then Some(Map(CanonicalEducation, data.education.value)) else None)
  }

  lemma ExperienceIgnoresEmpty(e: ProviderExperience)
    ensures NormalizeExperience(CanonicalExperience(e)) == NormalizeExperience(e)
  {
  }

  lemma EducationIgnoresEmpty(e: ProviderEducation)
    ensures NormalizeEducation(CanonicalEducation(e)) == NormalizeEducation(e)
  {
  }

  /** The normaliser cannot tell an empty string from a missing field. */
  lemma MissingAndEmptyAgree(data: ProviderProfile, originalUrl: string)
    ensures TransformToLinkedInProfile(CanonicalRecord(data), originalUrl)
         == TransformToLinkedInProfile(data, originalUrl)
  {
    var c := CanonicalRecord(data);
    var xs := OrEmpty(data.experience);
    var ys := OrEmpty(data.education);
    assert OrEmpty(c.experience) == Map(CanonicalExperience, xs);
    assert OrEmpty(c.education) == Map(CanonicalEducation, ys);
    forall i | 0 <= i < |xs|
      ensures NormalizeExperience(CanonicalExperience(xs[i])) == NormalizeExperience(xs[i])
    {
      ExperienceIgnoresEmpty(xs[i]);
    }
    forall i | 0 <= i < |ys|
      ensures NormalizeEducation(CanonicalEducation(ys[i])) == NormalizeEducation(ys[i])
    {
      EducationIgnoresEmpty(ys[i]);
    }
    MapAfterMap(NormalizeExperience, CanonicalExperience, NormalizeExperience, xs);
    MapAfterMap(NormalizeEducation, CanonicalEducation, NormalizeEducation, ys);
  }
}
