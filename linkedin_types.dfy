/** The records of the LinkedIn feature: the normalised profile the rest of
    the application reads, and the raw record the scraping provider returns.
    A provider field that may be missing, `null` or empty is an
    `Option<string>`; an optional field of the profile is an
    `Option<string>` whose `None` is JavaScript's `undefined`. */
module LinkedInTypes {
  import opened Wrappers

  /** `LinkedInExperience`, with the `location` and `companyUrl` the
      normaliser also fills in. */
  datatype Experience = Experience(
    title: string,
    company: string,
    duration: string,
    description: Option<string>,
    location: Option<string>,
    companyUrl: Option<string>)

  /** `LinkedInEducation` */
  datatype Education = Education(
    school: string,
    degree: string,
    fieldOfStudy: Option<string>,
    duration: string)

  /** `LinkedInProfile` */
  datatype Profile = Profile(
    name: string,
    headline: string,
    location: string,
    about: string,
    experience: seq<Experience>,
    education: seq<Education>,
    skills: seq<string>,
    connections: Option<string>,
    followers: Option<string>,
    profileUrl: string,
    profilePhoto: Option<string>)

  /** `ScrapingDogExperience` */
  datatype ProviderExperience = ProviderExperience(
    position: Option<string>,
    companyName: Option<string>,
    companyUrl: Option<string>,
    location: Option<string>,
    summary: Option<string>,
    startsAt: Option<string>,
    endsAt: Option<string>,
    duration: Option<string>)

  /** `ScrapingDogEducation` */
  datatype ProviderEducation = ProviderEducation(
    school: Option<string>,
    degree: Option<string>,
    fieldOfStudy: Option<string>,
    startsAt: Option<string>,
    endsAt: Option<string>)

  /** `ScrapingDogLinkedInResponse`; a missing array is `None`. */
  datatype ProviderProfile = ProviderProfile(
    fullName: Option<string>,
    firstName: Option<string>,
    lastName: Option<string>,
    publicIdentifier: Option<string>,
    backgroundCoverImageUrl: Option<string>,
    profilePhoto: Option<string>,
    headline: Option<string>,
    location: Option<string>,
    followers: Option<string>,
    connections: Option<string>,
    about: Option<string>,
    experience: Option<seq<ProviderExperience>>,
    education: Option<seq<ProviderEducation>>)
}
