/** The validated resume document the engine works on: the YAML mapping
    that every component reads, as plain values. */
module Resume {
  import opened Wrappers

  datatype Contact = Contact(
    name: string, email: string, phone: string,
    location: string, github: string, website: string)

  datatype Skills = Skills(title: string, list: seq<string>)

  /** An entry of a section's `links` list: `descriptor` and `link`. */
  datatype LinkEntry = LinkEntry(descriptor: string, link: string)

  datatype Section = Section(
    title: string,
    points: seq<string>,
    keywords: seq<string>,
    links: Option<seq<LinkEntry>>)

  /** A job; the dates may be given under `from`/`to` or under
      `from_date`/`to_date`. */
  datatype Job = Job(
    role: string, company: string, location: string,
    from: Option<string>, fromDate: Option<string>,
    to: Option<string>, toDate: Option<string>,
    sections: seq<Section>)

  datatype Experience = Experience(title: string, jobs: seq<Job>)

  datatype Graduation = Graduation(on: string, hasGraduated: bool)

  /** `gpa` is the text Python's formatting gives the stored value. */
  datatype Education = Education(
    title: string, school: string, location: string,
    degree: string, major: string,
    concentration: Option<string>,
    graduation: Option<Graduation>,
    gpa: string,
    honors: seq<string>,
    courses: seq<string>)

  datatype Content = Content(
    contact: Contact, skills: Skills, experience: Experience, education: Education)
}
