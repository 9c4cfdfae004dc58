/**
  The structured records the agents return (src/structure_outputs.py):
  the job-search parameters with their defaults, bounds and computed
  query codes, the resume record with its sentinel defaults, and the
  similarity/feedback record.

  Each record is built from an input in which every field is either left
  out, given as None, or given a value; building applies the defaults and
  the validation rules of the record and fails with a ValidationError
  where the record refuses the input.
 */
module StructureOutputs {
  import opened Wrappers
  import Decimal

  /** A field as passed to a record's constructor. */
  datatype Input<T> = Absent | Null | Given(value: T)

  datatype ValidationError = Missing(field: string) | NotNullable(field: string) | NotAString(field: string) | NotAnInt(field: string) | OutOfRange(field: string, given: int)

  /** Raised when a computed field multiplies a missing `days`. */
  datatype TypeError = NoneTimesInt

  // ---------------------------------------------------------------------
  // Enumerations

  /** Work arrangement (JobType). */
  datatype JobType = REMOTE | HYBRID | ONSITE

  function JobTypeValue(t: JobType): string {
    match t
    case REMOTE => "remote"
    case HYBRID => "hybrid"
    case ONSITE => "onsite"
  }

  /** Parses an enum value as the record's validation does. */
  function ParseJobType(v: string): (r: Option<JobType>)
    ensures r.Some? ==> JobTypeValue(r.value) == v
  {
    if v == "remote" then Some(REMOTE)
    else if v == "hybrid" then Some(HYBRID)
    else if v == "onsite" then Some(ONSITE)
    else None
  }

  lemma ParseJobTypeValue(t: JobType)
    ensures ParseJobType(JobTypeValue(t)) == Some(t)
  {
  }

  datatype ExperienceLevel = Internship | EntryLevel | Associate | MidSeniorLevel | Director | Executive

  function ExperienceLevelValue(e: ExperienceLevel): string {
    match e
    case Internship => "Internship"
    case EntryLevel => "Entry_level"
    case Associate => "Associate"
    case MidSeniorLevel => "Mid_Senior_level"
    case Director => "Director"
    case Executive => "Executive"
  }

  function ParseExperienceLevel(v: string): (r: Option<ExperienceLevel>)
    ensures r.Some? ==> ExperienceLevelValue(r.value) == v
  {
    if v == "Internship" then Some(Internship)
    else if v == "Entry_level" then Some(EntryLevel)
    else if v == "Associate" then Some(Associate)
    else if v == "Mid_Senior_level" then Some(MidSeniorLevel)
    else if v == "Director" then Some(Director)
    else if v == "Executive" then Some(Executive)
    else None
  }

  lemma ParseExperienceLevelValue(e: ExperienceLevel)
    ensures ParseExperienceLevel(ExperienceLevelValue(e)) == Some(e)
  {
  }

  // ---------------------------------------------------------------------
  // JobInfo

  /** The validated job-search parameters. */
  datatype JobInfo = JobInfo(
    title: Option<string>,
    location: Option<string>,
    days: Option<int>,
    companyName: Option<seq<string>>,
    companyId: Option<seq<string>>,
    skipJobId: Option<seq<string>>,
    jobType: Option<seq<JobType>>,
    experienceLevels: Option<seq<ExperienceLevel>>,
    limit: Option<int>)

  datatype JobInfoInput = JobInfoInput(
    title: Input<string>,
    location: Input<string>,
    days: Input<int>,
    companyName: Input<seq<string>>,
    companyId: Input<seq<string>>,
    skipJobId: Input<seq<string>>,
    jobType: Input<seq<JobType>>,
    experienceLevels: Input<seq<ExperienceLevel>>,
    limit: Input<int>)

  const DefaultDays := 7
  const MinLimit := 1
  const MaxLimit := 3
  const DefaultLimit := 3
  const SecondsPerDay := 86400

  /** An optional field: left out gives the default, None stays None. */
  function Optional<T>(i: Input<T>, default: Option<T>): (r: Option<T>)
    ensures i.Absent? ==> r == default
    ensures i.Null? ==> r.None?
    ensures i.Given? ==> r == Some(i.value)
  {
    match i
    case Absent => default
    case Null => None
    case Given(v) => Some(v)
  }

  /** A valid JobInfo keeps `limit` within the declared bounds (or None). */
  predicate ValidJobInfo(j: JobInfo) {
    j.limit.None? || MinLimit <= j.limit.value <= MaxLimit
  }

  /**
    Builds a JobInfo: every field is optional; `days` defaults to 7 and
    `limit` to 3; a given `limit` outside [1, 3] is refused (not clamped).
   */
  function MakeJobInfo(i: JobInfoInput): (r: Result<JobInfo, ValidationError>)
    ensures r.Ok? <==> !(i.limit.Given? && !(MinLimit <= i.limit.value <= MaxLimit))
    ensures r.Ok? ==> ValidJobInfo(r.value)
    ensures r.Err? ==> r.error == OutOfRange("limit", i.limit.value)
  {
    if i.limit.Given? && !(MinLimit <= i.limit.value <= MaxLimit) then
      Err(OutOfRange("limit", i.limit.value))
    else
      Ok(JobInfo(
        Optional(i.title, None),
        Optional(i.location, None),
        Optional(i.days, Some(DefaultDays)),
        Optional(i.companyName, None),
        Optional(i.companyId, None),
        Optional(i.skipJobId, None),
        Optional(i.jobType, None),
        Optional(i.experienceLevels, None),
        Optional(i.limit, Some(DefaultLimit))))
  }

  /** A limit in range is kept exactly as given; one out of range is refused. */
  lemma LimitIsValidatedNotClamped(i: JobInfoInput, v: int)
    requires i.limit == Given(v)
    ensures MinLimit <= v <= MaxLimit ==> MakeJobInfo(i).Ok? && MakeJobInfo(i).value.limit == Some(v)
    ensures !(MinLimit <= v <= MaxLimit) ==> MakeJobInfo(i) == Err(OutOfRange("limit", v))
  {
  }

  const NoFields: JobInfoInput :=
    JobInfoInput(Absent, Absent, Absent, Absent, Absent, Absent, Absent, Absent, Absent)

  /** datePosted: "r" followed by the number of seconds in `days` days. */
  function DatePosted(j: JobInfo): (r: Result<string, TypeError>)
    ensures r.Err? <==> j.days.None?
    ensures r.Ok? ==> |r.value| >= 2 && r.value[0] == 'r'
  {
    match j.days
    case None => Err(NoneTimesInt)
    case Some(d) => Ok("r" + Decimal.IntToString(d * SecondsPerDay))
  }

  /** The seconds count can be read back from datePosted. */
  lemma DatePostedRoundTrip(j: JobInfo)
    requires j.days.Some?
    ensures DatePosted(j).Ok?
    ensures Decimal.ParseInt(DatePosted(j).value[1..]) == Some(j.days.value * SecondsPerDay)
  {
    var s := DatePosted(j).value;
    assert s[1..] == Decimal.IntToString(j.days.value * SecondsPerDay);
    Decimal.IntToStringRoundTrip(j.days.value * SecondsPerDay);
  }

  /** Different day counts give different datePosted filters. */
  lemma DatePostedInjective(a: JobInfo, b: JobInfo)
    requires a.days.Some? && b.days.Some?
    requires DatePosted(a) == DatePosted(b)
    ensures a.days == b.days
  {
    DatePostedRoundTrip(a);
    DatePostedRoundTrip(b);
  }

  /** With nothing given, the record has the documented defaults and datePosted is "r604800". */
  lemma DefaultJobInfo()
    ensures MakeJobInfo(NoFields).Ok?
    ensures MakeJobInfo(NoFields).value.days == Some(7)
    ensures MakeJobInfo(NoFields).value.limit == Some(3)
    ensures MakeJobInfo(NoFields).value.title.None? && MakeJobInfo(NoFields).value.jobType.None?
    ensures DatePosted(MakeJobInfo(NoFields).value) == Ok("r604800")
  {
    var j := MakeJobInfo(NoFields).value;
    assert j.days.value * SecondsPerDay == 604800;
    assert Decimal.NatToString(604800) == "604800";
    assert Decimal.IntToString(604800) == "604800";
    assert DatePosted(j) == Ok("r" + Decimal.IntToString(604800));
    assert "r" + "604800" == "r604800";
  }

  // remote: work arrangement codes

  function RemoteCode(t: JobType): string {
    match t
    case ONSITE => "1"
    case REMOTE => "2"
    case HYBRID => "3"
  }

  function DecodeRemoteCode(c: string): (r: Option<JobType>)
    ensures r.Some? ==> RemoteCode(r.value) == c
  {
    if c == "1" then Some(ONSITE)
    else if c == "2" then Some(REMOTE)
    else if c == "3" then Some(HYBRID)
    else None
  }

  function RemoteCodes(ts: seq<JobType>): (r: seq<string>)
    ensures |r| == |ts|
    ensures forall k :: 0 <= k < |ts| ==> r[k] == RemoteCode(ts[k])
  {
    if ts == [] then [] else RemoteCodes(ts[..|ts| - 1]) + [RemoteCode(ts[|ts| - 1])]
  }

  function DecodeRemoteCodes(cs: seq<string>): Option<seq<JobType>>
  {
    if cs == [] then Some([])
    else
      var ts := DecodeRemoteCodes(cs[..|cs| - 1]);
      var t := DecodeRemoteCode(cs[|cs| - 1]);
      if ts.Some? && t.Some? then Some(ts.value + [t.value]) else None
  }

  /**
    The `remote` computed field: None when `jobType` is None or empty,
    otherwise the code of each arrangement, in the same order.
   */
  function Remote(j: JobInfo): (r: Option<seq<string>>)
    ensures r.None? <==> (j.jobType.None? || j.jobType.value == [])
    ensures r.Some? ==> r.value == RemoteCodes(j.jobType.value)
  {
    if j.jobType.None? || j.jobType.value == [] then None else Some(RemoteCodes(j.jobType.value))
  }

  lemma RemoteCodeInjective(a: JobType, b: JobType)
    requires RemoteCode(a) == RemoteCode(b)
    ensures a == b
  {
  }

  /** The arrangement list is recovered from its code list. */
  lemma {:induction false} RemoteCodesRoundTrip(ts: seq<JobType>)
    ensures DecodeRemoteCodes(RemoteCodes(ts)) == Some(ts)
  {
    if ts != [] {
      var init := ts[..|ts| - 1];
      var last := ts[|ts| - 1];
      RemoteCodesRoundTrip(init);
      var cs := RemoteCodes(ts);
      assert cs == RemoteCodes(init) + [RemoteCode(last)];
      assert cs[..|cs| - 1] == RemoteCodes(init);
      DecodeOfRemoteCode(last);
      assert init + [last] == ts;
    }
  }

  lemma DecodeOfRemoteCode(x: JobType)
    ensures DecodeRemoteCode(RemoteCode(x)) == Some(x)
  {
  }

  // experienceLevel: experience level codes

  function ExperienceCode(e: ExperienceLevel): string {
    match e
    case Internship => "1"
    case EntryLevel => "2"
    case Associate => "3"
    case MidSeniorLevel => "4"
    case Director => "5"
    case Executive => "6"
  }

  function DecodeExperienceCode(c: string): (r: Option<ExperienceLevel>)
    ensures r.Some? ==> ExperienceCode(r.value) == c
  {
    if c == "1" then Some(Internship)
    else if c == "2" then Some(EntryLevel)
    else if c == "3" then Some(Associate)
    else if c == "4" then Some(MidSeniorLevel)
    else if c == "5" then Some(Director)
    else if c == "6" then Some(Executive)
    else None
  }

  function ExperienceCodes(es: seq<ExperienceLevel>): (r: seq<string>)
    ensures |r| == |es|
    ensures forall k :: 0 <= k < |es| ==> r[k] == ExperienceCode(es[k])
  {
    if es == [] then [] else ExperienceCodes(es[..|es| - 1]) + [ExperienceCode(es[|es| - 1])]
  }

  function DecodeExperienceCodes(cs: seq<string>): Option<seq<ExperienceLevel>>
  {
    if cs == [] then Some([])
    else
      var es := DecodeExperienceCodes(cs[..|cs| - 1]);
      var e := DecodeExperienceCode(cs[|cs| - 1]);
      if es.Some? && e.Some? then Some(es.value + [e.value]) else None
  }

  /**
    The `experienceLevel` computed field: None when `experience_level` is
    None or empty, otherwise the code "1".."6" of each level, in order.
   */
  function ExperienceLevelField(j: JobInfo): (r: Option<seq<string>>)
    ensures r.None? <==> (j.experienceLevels.None? || j.experienceLevels.value == [])
    ensures r.Some? ==> r.value == ExperienceCodes(j.experienceLevels.value)
  {
    if j.experienceLevels.None? || j.experienceLevels.value == [] then None
    else Some(ExperienceCodes(j.experienceLevels.value))
  }

  lemma ExperienceCodeInjective(a: ExperienceLevel, b: ExperienceLevel)
    requires ExperienceCode(a) == ExperienceCode(b)
    ensures a == b
  {
  }

  /** The level list is recovered from its code list. */
  lemma {:induction false} ExperienceCodesRoundTrip(es: seq<ExperienceLevel>)
    ensures DecodeExperienceCodes(ExperienceCodes(es)) == Some(es)
  {
    if es != [] {
      var init := es[..|es| - 1];
      var last := es[|es| - 1];
      ExperienceCodesRoundTrip(init);
      var cs := ExperienceCodes(es);
      assert cs == ExperienceCodes(init) + [ExperienceCode(last)];
      assert cs[..|cs| - 1] == ExperienceCodes(init);
      DecodeOfExperienceCode(last);
      assert init + [last] == es;
    }
  }

  lemma DecodeOfExperienceCode(x: ExperienceLevel)
    ensures DecodeExperienceCode(ExperienceCode(x)) == Some(x)
  {
  }

  // ---------------------------------------------------------------------
  // Resume

  /**
    The `Education` field: declared a list of strings, but its default is
    the plain string "[No Education]", which is stored as it is.
   */
  datatype Education = EducationList(entries: seq<string>) | EducationText(text: string)

  datatype Resume = Resume(
    skills: seq<string>,
    profile: string,
    projects: seq<string>,
    certifications: seq<string>,
    experience: seq<string>,
    education: Education)

  datatype ResumeInput = ResumeInput(
    skills: Input<seq<string>>,
    profile: Input<string>,
    projects: Input<seq<string>>,
    certifications: Input<seq<string>>,
    experience: Input<seq<string>>,
    education: Input<seq<string>>)

  /** A field that has a default but is not nullable. */
  function Defaulted<T>(name: string, i: Input<T>, default: T): (r: Result<T, ValidationError>)
    ensures i.Absent? ==> r == Ok(default)
    ensures i.Null? ==> r == Err(NotNullable(name))
    ensures i.Given? ==> r == Ok(i.value)
  {
    match i
    case Absent => Ok(default)
    case Null => Err(NotNullable(name))
    case Given(v) => Ok(v)
  }

  /** Every resume field may be left out; none may be None. */
  predicate NoNullResumeField(i: ResumeInput) {
    !i.skills.Null? && !i.profile.Null? && !i.projects.Null? &&
    !i.certifications.Null? && !i.experience.Null? && !i.education.Null?
  }

  /**
    Builds a Resume: a field left out gets its sentinel default
    (['No skills'], 'No profile', ['No Projects'], ['No Certifications'],
    ['No Experience'], and the string '[No Education]'); None is refused.
   */
  function MakeResume(i: ResumeInput): (r: Result<Resume, ValidationError>)
    ensures r.Ok? <==> NoNullResumeField(i)
    ensures r.Ok? && i.skills.Absent? ==> r.value.skills == ["No skills"]
    ensures r.Ok? && i.profile.Absent? ==> r.value.profile == "No profile"
    ensures r.Ok? && i.projects.Absent? ==> r.value.projects == ["No Projects"]
    ensures r.Ok? && i.certifications.Absent? ==> r.value.certifications == ["No Certifications"]
    ensures r.Ok? && i.experience.Absent? ==> r.value.experience == ["No Experience"]
    ensures r.Ok? && i.education.Absent? ==> r.value.education == EducationText("[No Education]")
    ensures r.Ok? && i.skills.Given? ==> r.value.skills == i.skills.value
    ensures r.Ok? && i.profile.Given? ==> r.value.profile == i.profile.value
    ensures r.Ok? && i.projects.Given? ==> r.value.projects == i.projects.value
    ensures r.Ok? && i.certifications.Given? ==> r.value.certifications == i.certifications.value
    ensures r.Ok? && i.experience.Given? ==> r.value.experience == i.experience.value
    ensures r.Ok? && i.education.Given? ==> r.value.education == EducationList(i.education.value)
  {
    var skills :- Defaulted("skills", i.skills, ["No skills"]);
    var profile :- Defaulted("profile", i.profile, "No profile");
    var projects :- Defaulted("Projects", i.projects, ["No Projects"]);
    var certifications :- Defaulted("Certifications", i.certifications, ["No Certifications"]);
    var experience :- Defaulted("Experience", i.experience, ["No Experience"]);
    match i.education
    case Null => Err(NotNullable("Education"))
    case Absent => Ok(Resume(skills, profile, projects, certifications, experience, EducationText("[No Education]")))
    case Given(e) => Ok(Resume(skills, profile, projects, certifications, experience, EducationList(e)))
  }

  /** An explicitly empty list is kept empty: the sentinel replaces only a field left out. */
  lemma EmptyListIsNotReplaced(i: ResumeInput)
    requires NoNullResumeField(i) && i.skills == Given([])
    ensures MakeResume(i).Ok? && MakeResume(i).value.skills == []
  {
  }

  // ---------------------------------------------------------------------
  // SimilarAndFeedback

  datatype SimilarAndFeedback = SimilarAndFeedback(similarity: int, feedback: string)

  /**
    `similarity` is required and has no bounds; `feedback` defaults to
    'No feedback'.
   */
  function MakeSimilarAndFeedback(similarity: Input<int>, feedback: Input<string>): (r: Result<SimilarAndFeedback, ValidationError>)
    ensures r.Ok? <==> similarity.Given? && !feedback.Null?
    ensures r.Ok? ==> r.value.similarity == similarity.value
    ensures r.Ok? ==> r.value.feedback == (if feedback.Given? then feedback.value else "No feedback")
  {
    match similarity
    case Absent => Err(Missing("similarity"))
    case Null => Err(NotNullable("similarity"))
    case Given(s) =>
      var f :- Defaulted("feedback", feedback, "No feedback");
      Ok(SimilarAndFeedback(s, f))
  }

  /** The summary agent's record: the task summary and the skills it found. */
  datatype JobSummaryOutput = JobSummaryOutput(id: string, jobSkills: seq<string>, jobInfo: string)
}
