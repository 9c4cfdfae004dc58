/**
  The workflow state (src/state.py): the records that flow through the
  pipeline and the GraphState with its merge rule. `job_summaries` and
  `job_feedbacks` are accumulators, combined with list concatenation;
  every other field holds the last value written to it. A node returns a
  partial update that names only the fields it writes.
 */
module State {
  import opened Wrappers
  import SO = StructureOutputs

  /** Job ids; the model uses one id type for listings, summaries and feedbacks. */
  type Id = string

  /** A scraped job listing. */
  datatype Job = Job(
    id: Id,
    url: string,
    title: string,
    location: string,
    companyName: string,
    companyUrl: string,
    recruiterName: string,
    recruiterUrl: string,
    experienceLevel: string,
    contractType: string,
    workType: string,
    sector: string,
    salary: string,
    applyType: string,
    applyUrl: string,
    postedTimeAgo: string,
    postedDate: string,
    applicationsCount: string,
    description: string)

  /** The structured search parameters kept in the state (Job_Info_state). */
  datatype JobInfoState = JobInfoState(
    title: Option<string>,
    location: Option<string>,
    datePosted: Option<string>,
    companyName: Option<seq<string>>,
    companyId: Option<seq<string>>,
    skipJobId: Option<seq<string>>,
    remote: Option<seq<string>>,
    experienceLevel: Option<seq<string>>,
    contractType: Option<seq<string>>,
    limit: Option<int>)

  /** The summary of one listing, carrying the listing's id. */
  datatype JobSummary = JobSummary(jobInfo: string, jobSkills: seq<string>, id: Id)

  /** The match feedback for one summarized listing. */
  datatype JobFeedback = JobFeedback(similarity: int, id: Id, feedback: string)

  /**
    The resume fields. The state declares them as Resume_Fields; the value
    a node stores there is the resume record the extraction agent returns.
   */
  type ResumeFields = SO.Resume

  /** The id each record is keyed by. */
  function JobKey(j: Job): Id { j.id }
  function SummaryKey(s: JobSummary): Id { s.id }
  function FeedbackKey(f: JobFeedback): Id { f.id }

  /** The names of the state's fields. */
  datatype Field =
    | UserInput | ResumePath | JobInfoField | ResumeText | Jobs | VisitedIds
    | JobSummaries | ResumeFieldsField | JobFeedbacks | VisitedIdsFeedback

  predicate IsAccumulator(f: Field) {
    f == JobSummaries || f == JobFeedbacks
  }

  /**
    The state. A last-value field is None until some node writes it; an
    accumulator starts as the empty list.
   */
  datatype GraphState = GraphState(
    userInput: Option<string>,
    resumePath: Option<string>,
    jobInfo: Option<JobInfoState>,
    resumeText: Option<string>,
    jobs: Option<seq<Job>>,
    visitedIds: Option<set<Id>>,
    jobSummaries: seq<JobSummary>,
    resumeFields: Option<ResumeFields>,
    jobFeedbacks: seq<JobFeedback>,
    visitedIdsFeedback: Option<set<Id>>)

  /** A partial update: Some for each field the node returned, None for the others. */
  datatype Update = Update(
    userInput: Option<string>,
    resumePath: Option<string>,
    jobInfo: Option<JobInfoState>,
    resumeText: Option<string>,
    jobs: Option<seq<Job>>,
    visitedIds: Option<set<Id>>,
    jobSummaries: Option<seq<JobSummary>>,
    resumeFields: Option<ResumeFields>,
    jobFeedbacks: Option<seq<JobFeedback>>,
    visitedIdsFeedback: Option<set<Id>>)

  const EmptyState := GraphState(None, None, None, None, None, None, [], None, [], None)
  const NoUpdate := Update(None, None, None, None, None, None, None, None, None, None)

  /** Whether an update writes a field (the field is a key of the returned dict). */
  predicate Writes(u: Update, f: Field) {
    match f
    case UserInput => u.userInput.Some?
    case ResumePath => u.resumePath.Some?
    case JobInfoField => u.jobInfo.Some?
    case ResumeText => u.resumeText.Some?
    case Jobs => u.jobs.Some?
    case VisitedIds => u.visitedIds.Some?
    case JobSummaries => u.jobSummaries.Some?
    case ResumeFieldsField => u.resumeFields.Some?
    case JobFeedbacks => u.jobFeedbacks.Some?
    case VisitedIdsFeedback => u.visitedIdsFeedback.Some?
  }

  /** Two updates write no field in common. */
  predicate Disjoint(u1: Update, u2: Update) {
    forall f: Field :: !(Writes(u1, f) && Writes(u2, f))
  }

  /** Replace with the written value, or keep the old one. */
  function Written<T>(old_: Option<T>, delta: Option<T>): Option<T> {
    if delta.Some? then delta else old_
  }

  /** Applies one node's update to the state. */
  function Merge(s: GraphState, u: Update): GraphState {
    GraphState(
      Written(s.userInput, u.userInput),
      Written(s.resumePath, u.resumePath),
      Written(s.jobInfo, u.jobInfo),
      Written(s.resumeText, u.resumeText),
      Written(s.jobs, u.jobs),
      Written(s.visitedIds, u.visitedIds),
      s.jobSummaries + u.jobSummaries.GetOr([]),
      Written(s.resumeFields, u.resumeFields),
      s.jobFeedbacks + u.jobFeedbacks.GetOr([]),
      Written(s.visitedIdsFeedback, u.visitedIdsFeedback))
  }

  /** A field's value, tagged by its type, so that fields can be compared one at a time. */
  datatype FieldValue =
    | Text(text: Option<string>)
    | Info(info: Option<JobInfoState>)
    | JobList(jobs: Option<seq<Job>>)
    | IdSet(ids: Option<set<Id>>)
    | Summaries(summaries: seq<JobSummary>)
    | ResumeValue(resume: Option<ResumeFields>)
    | Feedbacks(feedbacks: seq<JobFeedback>)

  function Get(s: GraphState, f: Field): FieldValue {
    match f
    case UserInput => Text(s.userInput)
    case ResumePath => Text(s.resumePath)
    case JobInfoField => Info(s.jobInfo)
    case ResumeText => Text(s.resumeText)
    case Jobs => JobList(s.jobs)
    case VisitedIds => IdSet(s.visitedIds)
    case JobSummaries => Summaries(s.jobSummaries)
    case ResumeFieldsField => ResumeValue(s.resumeFields)
    case JobFeedbacks => Feedbacks(s.jobFeedbacks)
    case VisitedIdsFeedback => IdSet(s.visitedIdsFeedback)
  }

  /** The value an update writes to a last-value field. */
  function Replacement(u: Update, f: Field): FieldValue
    requires !IsAccumulator(f) && Writes(u, f)
  {
    match f
    case UserInput => Text(u.userInput)
    case ResumePath => Text(u.resumePath)
    case JobInfoField => Info(u.jobInfo)
    case ResumeText => Text(u.resumeText)
    case Jobs => JobList(u.jobs)
    case VisitedIds => IdSet(u.visitedIds)
    case ResumeFieldsField => ResumeValue(u.resumeFields)
    case VisitedIdsFeedback => IdSet(u.visitedIdsFeedback)
  }

  /** A merge changes exactly the fields the update names; a last-value field takes the written value. */
  lemma MergeChangesOnlyWrittenFields(s: GraphState, u: Update, f: Field)
    ensures !Writes(u, f) ==> Get(Merge(s, u), f) == Get(s, f)
    ensures Writes(u, f) && !IsAccumulator(f) ==> Get(Merge(s, u), f) == Replacement(u, f)
  {
  }

  /**
    An accumulator grows by the delta: the old list is a prefix of the
    new one and the rest is the delta, in order.
   */
  lemma MergeAppends(s: GraphState, u: Update)
    ensures var r := Merge(s, u);
      && s.jobSummaries <= r.jobSummaries
      && r.jobSummaries[|s.jobSummaries|..] == u.jobSummaries.GetOr([])
      && s.jobFeedbacks <= r.jobFeedbacks
      && r.jobFeedbacks[|s.jobFeedbacks|..] == u.jobFeedbacks.GetOr([])
  {
  }

  /** An empty delta, or no update at all, leaves the state as it was. */
  lemma MergeEmptyDelta(s: GraphState)
    ensures Merge(s, NoUpdate) == s
    ensures Merge(s, NoUpdate.(jobSummaries := Some([]), jobFeedbacks := Some([]))) == s
  {
    assert s.jobSummaries + [] == s.jobSummaries;
    assert s.jobFeedbacks + [] == s.jobFeedbacks;
  }

  /** Two updates applied one after the other, as a single update. */
  function Then(u1: Update, u2: Update): Update {
    Update(
      Written(u1.userInput, u2.userInput),
      Written(u1.resumePath, u2.resumePath),
      Written(u1.jobInfo, u2.jobInfo),
      Written(u1.resumeText, u2.resumeText),
      Written(u1.jobs, u2.jobs),
      Written(u1.visitedIds, u2.visitedIds),
      Concat(u1.jobSummaries, u2.jobSummaries),
      Written(u1.resumeFields, u2.resumeFields),
      Concat(u1.jobFeedbacks, u2.jobFeedbacks),
      Written(u1.visitedIdsFeedback, u2.visitedIdsFeedback))
  }

  function Concat<T>(a: Option<seq<T>>, b: Option<seq<T>>): (r: Option<seq<T>>)
    ensures r.GetOr([]) == a.GetOr([]) + b.GetOr([])
  {
    if a.None? then b else if b.None? then a else Some(a.value + b.value)
  }

  /** Merging is associative: two updates in a row equal their composition. */
  lemma MergeAssociative(s: GraphState, u1: Update, u2: Update)
    ensures Merge(Merge(s, u1), u2) == Merge(s, Then(u1, u2))
  {
    assert (s.jobSummaries + u1.jobSummaries.GetOr([])) + u2.jobSummaries.GetOr([])
        == s.jobSummaries + (u1.jobSummaries.GetOr([]) + u2.jobSummaries.GetOr([]));
    assert (s.jobFeedbacks + u1.jobFeedbacks.GetOr([])) + u2.jobFeedbacks.GetOr([])
        == s.jobFeedbacks + (u1.jobFeedbacks.GetOr([]) + u2.jobFeedbacks.GetOr([]));
  }

  /** In either order, two deltas leave the same multiset of entries in each accumulator. */
  lemma MergeOrderKeepsEntries(s: GraphState, u1: Update, u2: Update)
    ensures multiset(Merge(Merge(s, u1), u2).jobSummaries) == multiset(Merge(Merge(s, u2), u1).jobSummaries)
    ensures multiset(Merge(Merge(s, u1), u2).jobFeedbacks) == multiset(Merge(Merge(s, u2), u1).jobFeedbacks)
  {
    var a, b := u1.jobSummaries.GetOr([]), u2.jobSummaries.GetOr([]);
    assert multiset(s.jobSummaries + a + b) == multiset(s.jobSummaries) + multiset(a) + multiset(b);
    assert multiset(s.jobSummaries + b + a) == multiset(s.jobSummaries) + multiset(b) + multiset(a);
    var c, d := u1.jobFeedbacks.GetOr([]), u2.jobFeedbacks.GetOr([]);
    assert multiset(s.jobFeedbacks + c + d) == multiset(s.jobFeedbacks) + multiset(c) + multiset(d);
    assert multiset(s.jobFeedbacks + d + c) == multiset(s.jobFeedbacks) + multiset(d) + multiset(c);
  }

  /**
    Two updates that write disjoint sets of fields give the same state in
    either order: the two branches of the pipeline cannot disturb each other.
   */
  lemma AppendCommutes<T>(v: seq<T>, a: Option<seq<T>>, b: Option<seq<T>>)
    requires a.None? || b.None?
    ensures v + a.GetOr([]) + b.GetOr([]) == v + b.GetOr([]) + a.GetOr([])
  {
    assert a.GetOr([]) == [] || b.GetOr([]) == [];
  }

  /** Two writes of which at most one happens give the same value in either order. */
  lemma WrittenCommutes<T>(v: Option<T>, a: Option<T>, b: Option<T>)
    requires a.None? || b.None?
    ensures Written(Written(v, a), b) == Written(Written(v, b), a)
  {
  }

  lemma {:induction false} DisjointUpdatesCommute(s: GraphState, u1: Update, u2: Update)
    requires Disjoint(u1, u2)
    ensures Merge(Merge(s, u1), u2) == Merge(Merge(s, u2), u1)
  {
    var r1, r2 := Merge(Merge(s, u1), u2), Merge(Merge(s, u2), u1);
    assert r1.userInput == r2.userInput by {
      assert !(Writes(u1, UserInput) && Writes(u2, UserInput));
      WrittenCommutes(s.userInput, u1.userInput, u2.userInput);
    }
    assert r1.resumePath == r2.resumePath by {
      assert !(Writes(u1, ResumePath) && Writes(u2, ResumePath));
      WrittenCommutes(s.resumePath, u1.resumePath, u2.resumePath);
    }
    assert r1.jobInfo == r2.jobInfo by {
      assert !(Writes(u1, JobInfoField) && Writes(u2, JobInfoField));
      WrittenCommutes(s.jobInfo, u1.jobInfo, u2.jobInfo);
    }
    assert r1.resumeText == r2.resumeText by {
      assert !(Writes(u1, ResumeText) && Writes(u2, ResumeText));
      WrittenCommutes(s.resumeText, u1.resumeText, u2.resumeText);
    }
    assert r1.jobs == r2.jobs by {
      assert !(Writes(u1, Jobs) && Writes(u2, Jobs));
      WrittenCommutes(s.jobs, u1.jobs, u2.jobs);
    }
    assert r1.visitedIds == r2.visitedIds by {
      assert !(Writes(u1, VisitedIds) && Writes(u2, VisitedIds));
      WrittenCommutes(s.visitedIds, u1.visitedIds, u2.visitedIds);
    }
    assert r1.resumeFields == r2.resumeFields by {
      assert !(Writes(u1, ResumeFieldsField) && Writes(u2, ResumeFieldsField));
      WrittenCommutes(s.resumeFields, u1.resumeFields, u2.resumeFields);
    }
    assert r1.visitedIdsFeedback == r2.visitedIdsFeedback by {
      assert !(Writes(u1, VisitedIdsFeedback) && Writes(u2, VisitedIdsFeedback));
      WrittenCommutes(s.visitedIdsFeedback, u1.visitedIdsFeedback, u2.visitedIdsFeedback);
    }
    assert r1.jobSummaries == r2.jobSummaries by {
      assert !(Writes(u1, JobSummaries) && Writes(u2, JobSummaries));
      AppendCommutes(s.jobSummaries, u1.jobSummaries, u2.jobSummaries);
    }
    assert r1.jobFeedbacks == r2.jobFeedbacks by {
      assert !(Writes(u1, JobFeedbacks) && Writes(u2, JobFeedbacks));
      AppendCommutes(s.jobFeedbacks, u1.jobFeedbacks, u2.jobFeedbacks);
    }
  }

  /**
    The two dedup scopes are separate fields: an update that writes one of
    them leaves the other as it was.
   */
  lemma DedupScopesAreSeparate(s: GraphState, u: Update)
    ensures u.visitedIdsFeedback.None? ==> Merge(s, u).visitedIdsFeedback == s.visitedIdsFeedback
    ensures u.visitedIds.None? ==> Merge(s, u).visitedIds == s.visitedIds
  {
  }

  /** The invocation input: the query and two empty (or given) dedup sets. */
  function InitialState(userInput: string, resumePath: Option<string>, visited: set<Id>, visitedFeedback: set<Id>): (s: GraphState)
    ensures s.userInput == Some(userInput) && s.resumePath == resumePath
    ensures s.visitedIds == Some(visited) && s.visitedIdsFeedback == Some(visitedFeedback)
    ensures s.jobSummaries == [] && s.jobFeedbacks == []
    ensures s.jobs.None? && s.resumeText.None? && s.resumeFields.None? && s.jobInfo.None?
  {
    Merge(EmptyState, NoUpdate.(userInput := Some(userInput), resumePath := resumePath,
                                visitedIds := Some(visited), visitedIdsFeedback := Some(visitedFeedback)))
  }
}
