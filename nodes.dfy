/**
  The workflow nodes that hold logic of their own (src/nodes.py): the
  job-search node, which turns the structured parameters into the
  scraper's input and collects the scraped items into jobs; and the two
  deduplicating nodes, which summarize unseen listings and score unseen
  summaries against the resume.

  The agents and the scraper are parameters: total functions that answer
  None where the call raises. A node's reads of the state become its
  parameters, and the visited set it mutates in place is a VisitedSet
  object that the caller shares with the state.
 */
module Nodes {
  import opened Wrappers
  import SO = StructureOutputs
  import opened State
  import D = Dedup

  /** Why a node raised. */
  datatype NodeError =
    | InputAgentRaised                      // the job-input agent's call raised
    | DatePostedFailed(cause: SO.TypeError)  // dumping a JobInfo whose `days` is None
    | ScraperRaised                         // the scraper's call raised
    | InvalidItem(reason: SO.ValidationError) // a scraped item is not a valid Job
    | RaisedOn(id: Id)                      // processing the listing or summary with this id raised

  // ---------------------------------------------------------------------
  // JSON values: the scraper's input and its items

  datatype Json = JNull | JStr(text: string) | JInt(number: int) | JList(texts: seq<string>)

  function StrValue(v: Option<string>): Option<Json> {
    if v.Some? then Some(JStr(v.value)) else None
  }

  function ListValue(v: Option<seq<string>>): Option<Json> {
    if v.Some? then Some(JList(v.value)) else None
  }

  function IntValue(v: Option<int>): Option<Json> {
    if v.Some? then Some(JInt(v.value)) else None
  }

  /** A dumped field: present exactly when the value is not None, and then equal to it. */
  predicate Carries(m: map<string, Json>, name: string, v: Option<Json>) {
    (name in m <==> v.Some?) && (v.Some? ==> m[name] == v.value)
  }

  /** The keys a dump of a JobInfo can hold. */
  const DumpedKeys: set<string> :=
    {"title", "location", "companyName", "companyId", "skipJobId", "limit", "datePosted", "remote", "experienceLevel"}

  /**
    The scraper's input: the JobInfo dumped as JSON without `days`,
    `jobType` and `experience_level`, with None values left out, and with
    the computed `datePosted`, `remote` and `experienceLevel` included.
    Computing `datePosted` raises when `days` is None.
   */
  function ScraperInput(j: SO.JobInfo): (r: Result<map<string, Json>, SO.TypeError>)
    ensures r.Err? <==> j.days.None?
    ensures r.Ok? ==> "days" !in r.value && "jobType" !in r.value && "experience_level" !in r.value
    ensures r.Ok? ==> r.value.Keys <= DumpedKeys
    ensures r.Ok? ==> forall k :: k in r.value ==> r.value[k] != JNull
    ensures r.Ok? ==> Carries(r.value, "title", StrValue(j.title)) && Carries(r.value, "location", StrValue(j.location))
    ensures r.Ok? ==> Carries(r.value, "companyName", ListValue(j.companyName))
    ensures r.Ok? ==> Carries(r.value, "companyId", ListValue(j.companyId))
    ensures r.Ok? ==> Carries(r.value, "skipJobId", ListValue(j.skipJobId))
    ensures r.Ok? ==> Carries(r.value, "limit", IntValue(j.limit))
    ensures r.Ok? ==> Carries(r.value, "datePosted", Some(JStr(SO.DatePosted(j).value)))
    ensures r.Ok? ==> Carries(r.value, "remote", ListValue(SO.Remote(j)))
    ensures r.Ok? ==> Carries(r.value, "experienceLevel", ListValue(SO.ExperienceLevelField(j)))
  {
    var datePosted :- SO.DatePosted(j);
    Ok(map k | k in DumpedKeys && DumpedValue(j, datePosted, k).Some? :: DumpedValue(j, datePosted, k).value)
  }

  /** The dumped value of a key, None when the field is None. */
  function DumpedValue(j: SO.JobInfo, datePosted: string, k: string): (v: Option<Json>)
    ensures v.Some? ==> v.value != JNull
  {
    if k == "title" then StrValue(j.title)
    else if k == "location" then StrValue(j.location)
    else if k == "companyName" then ListValue(j.companyName)
    else if k == "companyId" then ListValue(j.companyId)
    else if k == "skipJobId" then ListValue(j.skipJobId)
    else if k == "limit" then IntValue(j.limit)
    else if k == "datePosted" then Some(JStr(datePosted))
    else if k == "remote" then ListValue(SO.Remote(j))
    else if k == "experienceLevel" then ListValue(SO.ExperienceLevelField(j))
    else None
  }

  /** With the default `days`, the scraper is asked for listings of the last seven days. */
  lemma DefaultScraperInput()
    ensures var j := SO.MakeJobInfo(SO.NoFields).value;
      ScraperInput(j).Ok? && ScraperInput(j).value["datePosted"] == JStr("r604800")
      && ScraperInput(j).value["limit"] == JInt(3)
      && "title" !in ScraperInput(j).value && "remote" !in ScraperInput(j).value
  {
    SO.DefaultJobInfo();
  }

  // ---------------------------------------------------------------------
  // Job(**item)

  /** The fields of a Job, in declaration order. */
  const JobFieldNames: seq<string> := [
    "id", "url", "title", "location", "companyName", "companyUrl", "recruiterName",
    "recruiterUrl", "experienceLevel", "contractType", "workType", "sector", "salary",
    "applyType", "applyUrl", "postedTimeAgo", "postedDate", "applicationsCount", "description"]

  /** A Job's field values in declaration order. */
  function JobFields(j: Job): (vs: seq<string>)
    ensures |vs| == |JobFieldNames|
    ensures vs[0] == j.id && vs[|vs| - 1] == j.description
  {
    [j.id, j.url, j.title, j.location, j.companyName, j.companyUrl, j.recruiterName,
     j.recruiterUrl, j.experienceLevel, j.contractType, j.workType, j.sector, j.salary,
     j.applyType, j.applyUrl, j.postedTimeAgo, j.postedDate, j.applicationsCount, j.description]
  }

  /** The Job with the given field values. */
  function JobOf(vs: seq<string>): (j: Job)
    requires |vs| == |JobFieldNames|
    ensures JobFields(j) == vs
  {
    Job(vs[0], vs[1], vs[2], vs[3], vs[4], vs[5], vs[6], vs[7], vs[8], vs[9],
        vs[10], vs[11], vs[12], vs[13], vs[14], vs[15], vs[16], vs[17], vs[18])
  }

  /** A job is determined by its field values. */
  lemma JobFieldsInjective(a: Job, b: Job)
    requires JobFields(a) == JobFields(b)
    ensures a == b
  {
    var va, vb := JobFields(a), JobFields(b);
    assert va[0] == vb[0] && va[1] == vb[1] && va[2] == vb[2] && va[3] == vb[3] && va[4] == vb[4];
    assert va[5] == vb[5] && va[6] == vb[6] && va[7] == vb[7] && va[8] == vb[8] && va[9] == vb[9];
    assert va[10] == vb[10] && va[11] == vb[11] && va[12] == vb[12] && va[13] == vb[13] && va[14] == vb[14];
    assert va[15] == vb[15] && va[16] == vb[16] && va[17] == vb[17] && va[18] == vb[18];
  }

  /** The item holds a string under every one of the names. */
  predicate HasStrings(item: map<string, Json>, names: seq<string>) {
    forall k :: 0 <= k < |names| ==> names[k] in item && item[names[k]].JStr?
  }

  /** Reads the named string fields of an item; the first one missing or not a string is reported. */
  function StringFields(item: map<string, Json>, names: seq<string>): (r: Result<seq<string>, SO.ValidationError>)
    ensures r.Ok? <==> HasStrings(item, names)
    ensures r.Ok? ==> |r.value| == |names| && forall k :: 0 <= k < |names| ==> item[names[k]] == JStr(r.value[k])
    ensures r.Err? ==> exists k :: 0 <= k < |names| && (r.error == SO.Missing(names[k]) || r.error == SO.NotAString(names[k]))
  {
    if names == [] then Ok([])
    else
      var init := names[..|names| - 1];
      var name := names[|names| - 1];
      var vs := StringFields(item, init);
      assert forall k :: 0 <= k < |init| ==> init[k] == names[k];
      if vs.Err? then
        assert !HasStrings(item, names) by {
          if HasStrings(item, names) {
            assert HasStrings(item, init);
          }
        }
        Err(vs.error)
      else if name !in item then Err(SO.Missing(name))
      else if !item[name].JStr? then Err(SO.NotAString(name))
      else
        var r := vs.value + [item[name].text];
        assert forall k :: 0 <= k < |names| ==> item[names[k]] == JStr(r[k]);
        Ok(r)
  }

  /**
    `Job(**item)`: every field is a required string; keys that are not
    fields are ignored.
   */
  function JobFromItem(item: map<string, Json>): (r: Result<Job, SO.ValidationError>)
    ensures r.Ok? <==> HasStrings(item, JobFieldNames)
    ensures r.Ok? ==> forall k :: 0 <= k < |JobFieldNames| ==> item[JobFieldNames[k]] == JStr(JobFields(r.value)[k])
  {
    var vs :- StringFields(item, JobFieldNames);
    Ok(JobOf(vs))
  }

  /** An item carrying a job's fields as strings gives back that job. */
  lemma JobFromItemOfFields(item: map<string, Json>, j: Job)
    requires forall k :: 0 <= k < |JobFieldNames| ==> JobFieldNames[k] in item && item[JobFieldNames[k]] == JStr(JobFields(j)[k])
    ensures JobFromItem(item) == Ok(j)
  {
    var r := JobFromItem(item);
    assert HasStrings(item, JobFieldNames);
    assert JobFields(r.value) == JobFields(j);
    JobFieldsInjective(r.value, j);
  }

  /** A key that is not a field of Job does not change the outcome. */
  lemma {:induction false} StringFieldsIgnoreOtherKeys(item: map<string, Json>, names: seq<string>, other: string, v: Json)
    requires other !in names
    ensures StringFields(item[other := v], names) == StringFields(item, names)
  {
    if names != [] {
      var init := names[..|names| - 1];
      forall k | 0 <= k < |init| ensures init[k] != other {
        assert init[k] == names[k];
      }
      StringFieldsIgnoreOtherKeys(item, init, other, v);
    }
  }

  lemma JobFromItemIgnoresExtraKeys(item: map<string, Json>, other: string, v: Json)
    requires other !in JobFieldNames
    ensures JobFromItem(item[other := v]) == JobFromItem(item)
  {
    StringFieldsIgnoreOtherKeys(item, JobFieldNames, other, v);
  }

  /** `f` applied to every element in order; the first error stops the walk. */
  function AllOk<A, B, E>(f: A -> Result<B, E>, xs: seq<A>): Result<seq<B>, E> {
    if xs == [] then Ok([])
    else
      var ys := AllOk(f, xs[..|xs| - 1]);
      if ys.Err? then ys
      else
        var y := f(xs[|xs| - 1]);
        if y.Err? then Err(y.error) else Ok(ys.value + [y.value])
  }

  /**
    The walk succeeds exactly when `f` succeeds on every element, and then
    holds their results in order; otherwise it fails with the error of the
    first element on which `f` fails.
   */
  lemma {:induction false} AllOkMeaning<A, B, E>(f: A -> Result<B, E>, xs: seq<A>) returns (k: nat)
    ensures var r := AllOk(f, xs);
      && (r.Ok? <==> forall i :: 0 <= i < |xs| ==> f(xs[i]).Ok?)
      && (r.Ok? ==> |r.value| == |xs| && forall i :: 0 <= i < |xs| ==> f(xs[i]) == Ok(r.value[i]))
      && (r.Err? ==> k < |xs| && f(xs[k]) == Err(r.error) && forall i :: 0 <= i < k ==> f(xs[i]).Ok?)
  {
    k := 0;
    if xs != [] {
      var init := xs[..|xs| - 1];
      k := AllOkMeaning(f, init);
      assert forall i :: 0 <= i < |init| ==> init[i] == xs[i];
      if AllOk(f, init).Ok? && f(xs[|xs| - 1]).Err? {
        k := |xs| - 1;
      }
    }
  }

  /** An error within the first n elements is the error of the whole walk. */
  lemma {:induction false} AllOkErrorStays<A, B, E>(f: A -> Result<B, E>, xs: seq<A>, n: nat)
    requires n <= |xs| && AllOk(f, xs[..n]).Err?
    ensures AllOk(f, xs) == AllOk(f, xs[..n])
    decreases |xs| - n
  {
    if n == |xs| {
      assert xs[..n] == xs;
    } else {
      var init := xs[..|xs| - 1];
      assert init[..n] == xs[..n];
      AllOkErrorStays(f, init, n);
      var e := AllOk(f, xs[..n]);
      assert AllOk(f, init) == e;
      assert AllOk(f, xs) == e;
    }
  }

  /** The scraped items as jobs, in order; the first invalid item stops the loop. */
  function JobsFromItems(items: seq<map<string, Json>>): Result<seq<Job>, SO.ValidationError> {
    AllOk(JobFromItem, items)
  }

  /** The collect loop: `Job(**item)` for every scraped item, appended in order. */
  method CollectJobs(items: seq<map<string, Json>>) returns (r: Result<seq<Job>, SO.ValidationError>)
    ensures r == JobsFromItems(items)
  {
    var l: seq<Job> := [];
    var i := 0;
    while i < |items|
      invariant 0 <= i <= |items|
      invariant AllOk(JobFromItem, items[..i]) == Ok(l)
    {
      var j := JobFromItem(items[i]);
      assert items[..i + 1][..i] == items[..i];
      if j.Err? {
        AllOkErrorStays(JobFromItem, items, i + 1);
        return Err(j.error);
      }
      l := l + [j.value];
      i := i + 1;
    }
    assert items[..i] == items;
    return Ok(l);
  }

  /**
    job_searching_node: the job-input agent structures the query, the
    parameters are dumped for the scraper, and the scraped items become
    the `jobs` update. Any exception propagates.
   */
  method JobSearchingNode(userInput: string, jobInputAgent: string -> Option<SO.JobInfo>,
                          scraper: map<string, Json> -> Option<seq<map<string, Json>>>)
    returns (r: Result<Update, NodeError>)
    ensures jobInputAgent(userInput).None? ==> r == Err(InputAgentRaised)
    ensures jobInputAgent(userInput).Some? && jobInputAgent(userInput).value.days.None? ==> r == Err(DatePostedFailed(SO.NoneTimesInt))
    ensures jobInputAgent(userInput).Some? && ScraperInput(jobInputAgent(userInput).value).Ok? ==>
      var items := scraper(ScraperInput(jobInputAgent(userInput).value).value);
      && (items.None? ==> r == Err(ScraperRaised))
      && (items.Some? && JobsFromItems(items.value).Err? ==> r == Err(InvalidItem(JobsFromItems(items.value).error)))
      && (items.Some? && JobsFromItems(items.value).Ok? ==> r == Ok(NoUpdate.(jobs := Some(JobsFromItems(items.value).value))))
    ensures r.Ok? ==> r.value.jobs.Some? && forall f :: f != Jobs ==> !Writes(r.value, f)
  {
    var info := jobInputAgent(userInput);
    if info.None? {
      return Err(InputAgentRaised);
    }
    var params := ScraperInput(info.value);
    if params.Err? {
      return Err(DatePostedFailed(params.error));
    }
    var items := scraper(params.value);
    if items.None? {
      return Err(ScraperRaised);
    }
    var jobs := CollectJobs(items.value);
    if jobs.Err? {
      return Err(InvalidItem(jobs.error));
    }
    return Ok(NoUpdate.(jobs := Some(jobs.value)));
  }

  // ---------------------------------------------------------------------
  // extract_fields_from_job_desc

  /**
    The summary of one listing: the agent is given the description, and
    the summary takes its text and skills from the agent and its id from
    the listing.
   */
  function SummarizeJob(summarize: string -> Option<SO.JobSummaryOutput>, job: Job): (r: Option<JobSummary>)
    ensures r.Some? <==> summarize(job.description).Some?
    ensures r.Some? ==> (r.value.id == job.id
                         && r.value.jobInfo == summarize(job.description).value.jobInfo
                         && r.value.jobSkills == summarize(job.description).value.jobSkills)
  {
    match summarize(job.description)
    case None => None
    case Some(o) => Some(JobSummary(o.jobInfo, o.jobSkills, job.id))
  }

  /** The node's loop over `jobs` from visited set `seen`. */
  function SummaryPass(jobs: seq<Job>, summarize: string -> Option<SO.JobSummaryOutput>, seen: set<Id>): D.Pass<JobSummary> {
    D.DedupPass(summarize, jobs, JobKey, SummarizeJob, seen)
  }

  /**
    What the node returns after its loop: the summaries and the visited
    set, or the exception raised on an id.
   */
  function SummaryOutcome(p: D.Pass<JobSummary>): (r: Result<Update, NodeError>)
    ensures r.Ok? <==> p.failed.None?
    ensures r.Ok? ==> r.value.jobSummaries == Some(p.out) && r.value.visitedIds == Some(p.seen)
                      && forall f :: f != JobSummaries && f != VisitedIds ==> !Writes(r.value, f)
    ensures r.Err? ==> r.error == RaisedOn(p.failed.value)
  {
    if p.failed.Some? then Err(RaisedOn(p.failed.value))
    else Ok(NoUpdate.(jobSummaries := Some(p.out), visitedIds := Some(p.seen)))
  }

  /** One iteration of the node's loop, over job i, from the pass over the jobs before it. */
  lemma SummaryStep(jobs: seq<Job>, summarize: string -> Option<SO.JobSummaryOutput>, seen: set<Id>, i: nat, out: seq<JobSummary>, ids: set<Id>)
    requires i < |jobs|
    requires SummaryPass(jobs[..i], summarize, seen) == D.Pass(out, ids, None)
    ensures var job := jobs[i];
      && (job.id in ids ==> SummaryPass(jobs[..i + 1], summarize, seen) == D.Pass(out, ids, None))
      && (job.id !in ids && SummarizeJob(summarize, job).Some? ==>
            SummaryPass(jobs[..i + 1], summarize, seen) == D.Pass(out + [SummarizeJob(summarize, job).value], ids + {job.id}, None))
      && (job.id !in ids && SummarizeJob(summarize, job).None? ==>
            SummaryPass(jobs, summarize, seen) == D.Pass(out, ids + {job.id}, Some(job.id)))
  {
    var p := D.Pass(out, ids, None);
    D.PassStep(summarize, jobs, JobKey, SummarizeJob, seen, i, p);
    if jobs[i].id !in ids && SummarizeJob(summarize, jobs[i]).None? {
      D.PassStopsAt(summarize, jobs, JobKey, SummarizeJob, seen, i, p);
    }
  }

  /**
    extract_fields_from_job_desc: for each job whose id is not visited,
    mark it visited, then summarize it. On success the update holds the
    summaries and the visited set; if the agent raises, no update is
    returned, but the ids marked so far stay in the shared set.
   */
  method ExtractFieldsFromJobDesc(jobs: seq<Job>, visited: D.VisitedSet, summarize: string -> Option<SO.JobSummaryOutput>)
    returns (r: Result<Update, NodeError>)
    modifies visited
    ensures visited.ids == SummaryPass(jobs, summarize, old(visited.ids)).seen
    ensures r == SummaryOutcome(SummaryPass(jobs, summarize, old(visited.ids)))
  {
    ghost var seen0 := visited.ids;
    var out: seq<JobSummary> := [];
    var i := 0;
    while i < |jobs|
      invariant 0 <= i <= |jobs|
      invariant SummaryPass(jobs[..i], summarize, seen0) == D.Pass(out, visited.ids, None)
    {
      var job := jobs[i];
      SummaryStep(jobs, summarize, seen0, i, out, visited.ids);
      var isNew := visited.TestAndSet(job.id);
      if isNew {
        var s := SummarizeJob(summarize, job);
        if s.None? {
          return Err(RaisedOn(job.id));
        }
        out := out + [s.value];
      }
      i := i + 1;
    }
    assert jobs[..i] == jobs;
    return Ok(NoUpdate.(jobSummaries := Some(out), visitedIds := Some(visited.ids)));
  }

  /**
    Exactly one summary per first occurrence of a job id that was not
    visited, in the jobs' order, each carrying that job's id and the
    agent's answer for its description.
   */
  lemma SummariesOfFreshJobs(jobs: seq<Job>, summarize: string -> Option<SO.JobSummaryOutput>, seen: set<Id>)
    requires SummaryPass(jobs, summarize, seen).failed.None?
    ensures var out := SummaryPass(jobs, summarize, seen).out;
      var firsts := D.Fresh(jobs, JobKey, seen);
      && |out| == |firsts|
      && (forall k :: 0 <= k < |out| ==>
            out[k].id == firsts[k].id
            && summarize(firsts[k].description).Some?
            && summarize(firsts[k].description).value.jobSkills == out[k].jobSkills
            && summarize(firsts[k].description).value.jobInfo == out[k].jobInfo)
  {
    var out := SummaryPass(jobs, summarize, seen).out;
    var firsts := D.Fresh(jobs, JobKey, seen);
    D.PassMatchesFresh(summarize, jobs, JobKey, SummarizeJob, seen);
    forall k | 0 <= k < |out|
      ensures out[k].id == firsts[k].id
    {
      assert SummarizeJob(summarize, firsts[k]) == Some(out[k]);
    }
  }

  /**
    The summaries' ids are pairwise distinct and none was visited before:
    a job id repeated in `jobs` is summarized once, and the number of
    summaries is the number of distinct new ids.
   */
  lemma SummaryIdsAreNew(jobs: seq<Job>, summarize: string -> Option<SO.JobSummaryOutput>, seen: set<Id>)
    requires SummaryPass(jobs, summarize, seen).failed.None?
    ensures var out := SummaryPass(jobs, summarize, seen).out;
      && |out| == |D.KeysOf(jobs, JobKey) - seen|
      && (forall a, b :: 0 <= a < b < |out| ==> out[a].id != out[b].id)
      && (forall a :: 0 <= a < |out| ==> out[a].id !in seen)
  {
    SummariesOfFreshJobs(jobs, summarize, seen);
    D.FreshDistinctUnseen(jobs, JobKey, seen);
    D.FreshCount(jobs, JobKey, seen);
  }

  /** The returned visited set is the incoming one plus every job id; no id is removed. */
  lemma SummaryVisitedSet(jobs: seq<Job>, summarize: string -> Option<SO.JobSummaryOutput>, seen: set<Id>)
    ensures var p := SummaryPass(jobs, summarize, seen);
      && seen <= p.seen
      && (p.failed.None? ==> p.seen == seen + set k | 0 <= k < |jobs| :: jobs[k].id)
  {
    var p := SummaryPass(jobs, summarize, seen);
    D.PassSeen(summarize, jobs, JobKey, SummarizeJob, seen);
    if p.failed.None? {
      assert D.KeysOf(jobs, JobKey) == set k | 0 <= k < |jobs| :: jobs[k].id;
    }
  }

  /** Re-running the node with the visited set it returned yields no summaries. */
  lemma SummaryPassIdempotent(jobs: seq<Job>, summarize: string -> Option<SO.JobSummaryOutput>, seen: set<Id>)
    requires SummaryPass(jobs, summarize, seen).failed.None?
    ensures var p := SummaryPass(jobs, summarize, seen);
      SummaryPass(jobs, summarize, p.seen) == D.Pass([], p.seen, None)
  {
    D.PassIdempotent(summarize, jobs, JobKey, SummarizeJob, seen);
  }

  /**
    When the agent raises, it was on a job whose id was new; that id is
    already in the shared visited set, and the summaries made before it
    are lost with the exception.
   */
  lemma SummaryPassFailure(jobs: seq<Job>, summarize: string -> Option<SO.JobSummaryOutput>, seen: set<Id>)
    returns (i: nat)
    requires SummaryPass(jobs, summarize, seen).failed.Some?
    ensures var p := SummaryPass(jobs, summarize, seen);
      && i < |jobs| && jobs[i].id == p.failed.value && summarize(jobs[i].description).None?
      && jobs[i].id !in seen && (forall j :: 0 <= j < i ==> jobs[j].id != jobs[i].id)
      && SummaryPass(jobs[..i], summarize, seen).failed.None?
      && p.seen == SummaryPass(jobs[..i], summarize, seen).seen + {jobs[i].id}
  {
    i := D.PassFailure(summarize, jobs, JobKey, SummarizeJob, seen);
  }


  // ---------------------------------------------------------------------
  // Feedback_and_similarity

  /** What every feedback call shares: the stored resume fields, if any, and the feedback agent. */
  datatype FeedbackCtx = FeedbackCtx(
    resume: Option<ResumeFields>,
    agent: (seq<string>, string, seq<string>, string) -> Option<SO.SimilarAndFeedback>)

  /**
    The feedback for one summary: the agent compares the resume's skills
    and profile with the summary's skills and text, and the feedback is
    keyed by the summary's id. Reading the resume fields raises when
    none are stored.
   */
  function FeedbackFor(ctx: FeedbackCtx, s: JobSummary): (r: Option<JobFeedback>)
    ensures r.Some? <==> ctx.resume.Some? && ctx.agent(ctx.resume.value.skills, ctx.resume.value.profile, s.jobSkills, s.jobInfo).Some?
    ensures r.Some? ==>
      var sf := ctx.agent(ctx.resume.value.skills, ctx.resume.value.profile, s.jobSkills, s.jobInfo).value;
      r.value.id == s.id && r.value.similarity == sf.similarity && r.value.feedback == sf.feedback
  {
    if ctx.resume.None? then None
    else match ctx.agent(ctx.resume.value.skills, ctx.resume.value.profile, s.jobSkills, s.jobInfo)
      case None => None
      case Some(sf) => Some(JobFeedback(sf.similarity, s.id, sf.feedback))
  }

  function FeedbackPass(summaries: seq<JobSummary>, ctx: FeedbackCtx, seen: set<Id>): D.Pass<JobFeedback> {
    D.DedupPass(ctx, summaries, SummaryKey, FeedbackFor, seen)
  }

  /** What the node returns after its loop: the feedbacks and the visited set, or the exception raised on an id. */
  function FeedbackOutcome(p: D.Pass<JobFeedback>): (r: Result<Update, NodeError>)
    ensures r.Ok? <==> p.failed.None?
    ensures r.Ok? ==> r.value.jobFeedbacks == Some(p.out) && r.value.visitedIdsFeedback == Some(p.seen)
                      && forall f :: f != JobFeedbacks && f != VisitedIdsFeedback ==> !Writes(r.value, f)
    ensures r.Err? ==> r.error == RaisedOn(p.failed.value)
  {
    if p.failed.Some? then Err(RaisedOn(p.failed.value))
    else Ok(NoUpdate.(jobFeedbacks := Some(p.out), visitedIdsFeedback := Some(p.seen)))
  }

  /** One iteration of the node's loop, over summary i, from the pass over the summaries before it. */
  lemma FeedbackStep(summaries: seq<JobSummary>, ctx: FeedbackCtx, seen: set<Id>, i: nat, out: seq<JobFeedback>, ids: set<Id>)
    requires i < |summaries|
    requires FeedbackPass(summaries[..i], ctx, seen) == D.Pass(out, ids, None)
    ensures var s := summaries[i];
      && (s.id in ids ==> FeedbackPass(summaries[..i + 1], ctx, seen) == D.Pass(out, ids, None))
      && (s.id !in ids && FeedbackFor(ctx, s).Some? ==>
            FeedbackPass(summaries[..i + 1], ctx, seen) == D.Pass(out + [FeedbackFor(ctx, s).value], ids + {s.id}, None))
      && (s.id !in ids && FeedbackFor(ctx, s).None? ==>
            FeedbackPass(summaries, ctx, seen) == D.Pass(out, ids + {s.id}, Some(s.id)))
  {
    var p := D.Pass(out, ids, None);
    D.PassStep(ctx, summaries, SummaryKey, FeedbackFor, seen, i, p);
    if summaries[i].id !in ids && FeedbackFor(ctx, summaries[i]).None? {
      D.PassStopsAt(ctx, summaries, SummaryKey, FeedbackFor, seen, i, p);
    }
  }

  /**
    Feedback_and_similarity, with each feedback keyed by its summary's
    id: for each summary whose id is not visited, mark it visited, then
    ask the agent. On success the update holds the feedbacks and the
    visited set; if a call raises, no update is returned.
   */
  method FeedbackAndSimilarity(summaries: seq<JobSummary>, visited: D.VisitedSet, ctx: FeedbackCtx)
    returns (r: Result<Update, NodeError>)
    modifies visited
    ensures visited.ids == FeedbackPass(summaries, ctx, old(visited.ids)).seen
    ensures r == FeedbackOutcome(FeedbackPass(summaries, ctx, old(visited.ids)))
  {
    ghost var seen0 := visited.ids;
    var out: seq<JobFeedback> := [];
    var i := 0;
    while i < |summaries|
      invariant 0 <= i <= |summaries|
      invariant FeedbackPass(summaries[..i], ctx, seen0) == D.Pass(out, visited.ids, None)
    {
      var summary := summaries[i];
      FeedbackStep(summaries, ctx, seen0, i, out, visited.ids);
      var isNew := visited.TestAndSet(summary.id);
      if isNew {
        var f := FeedbackFor(ctx, summary);
        if f.None? {
          return Err(RaisedOn(summary.id));
        }
        out := out + [f.value];
      }
      i := i + 1;
    }
    assert summaries[..i] == summaries;
    return Ok(NoUpdate.(jobFeedbacks := Some(out), visitedIdsFeedback := Some(visited.ids)));
  }

  /**
    Exactly one feedback per first occurrence of a summary id that was
    not visited, in order, each carrying that summary's id and what the
    agent answered for it, every call made with the same resume skills
    and profile.
   */
  lemma FeedbacksOfFreshSummaries(summaries: seq<JobSummary>, ctx: FeedbackCtx, seen: set<Id>)
    requires FeedbackPass(summaries, ctx, seen).failed.None?
    ensures var out := FeedbackPass(summaries, ctx, seen).out;
      var firsts := D.Fresh(summaries, SummaryKey, seen);
      && |out| == |firsts|
      && (out != [] ==> ctx.resume.Some?)
      && (forall k :: 0 <= k < |out| ==>
            out[k].id == firsts[k].id
            && ctx.agent(ctx.resume.value.skills, ctx.resume.value.profile, firsts[k].jobSkills, firsts[k].jobInfo)
               == Some(SO.SimilarAndFeedback(out[k].similarity, out[k].feedback)))
  {
    var out := FeedbackPass(summaries, ctx, seen).out;
    var firsts := D.Fresh(summaries, SummaryKey, seen);
    D.PassMatchesFresh(ctx, summaries, SummaryKey, FeedbackFor, seen);
    forall k | 0 <= k < |out|
      ensures out[k].id == firsts[k].id
      ensures ctx.resume.Some?
      ensures ctx.agent(ctx.resume.value.skills, ctx.resume.value.profile, firsts[k].jobSkills, firsts[k].jobInfo)
              == Some(SO.SimilarAndFeedback(out[k].similarity, out[k].feedback))
    {
      var f := FeedbackFor(ctx, firsts[k]);
      assert f == Some(out[k]);
      var sf := ctx.agent(ctx.resume.value.skills, ctx.resume.value.profile, firsts[k].jobSkills, firsts[k].jobInfo).value;
      assert sf == SO.SimilarAndFeedback(out[k].similarity, out[k].feedback);
    }
  }

  /**
    The feedbacks' ids are pairwise distinct and none was visited before:
    one feedback per distinct new summary id.
   */
  lemma FeedbackIdsAreNew(summaries: seq<JobSummary>, ctx: FeedbackCtx, seen: set<Id>)
    requires FeedbackPass(summaries, ctx, seen).failed.None?
    ensures var out := FeedbackPass(summaries, ctx, seen).out;
      && |out| == |D.KeysOf(summaries, SummaryKey) - seen|
      && (forall a, b :: 0 <= a < b < |out| ==> out[a].id != out[b].id)
      && (forall a :: 0 <= a < |out| ==> out[a].id !in seen)
  {
    FeedbacksOfFreshSummaries(summaries, ctx, seen);
    D.FreshDistinctUnseen(summaries, SummaryKey, seen);
    D.FreshCount(summaries, SummaryKey, seen);
  }

  /** Re-running the node with the visited set it returned yields no feedback. */
  lemma FeedbackPassIdempotent(summaries: seq<JobSummary>, ctx: FeedbackCtx, seen: set<Id>)
    requires FeedbackPass(summaries, ctx, seen).failed.None?
    ensures var p := FeedbackPass(summaries, ctx, seen);
      FeedbackPass(summaries, ctx, p.seen) == D.Pass([], p.seen, None)
  {
    D.PassIdempotent(ctx, summaries, SummaryKey, FeedbackFor, seen);
  }

  // ---------------------------------------------------------------------
  // Job_Feedback as the node builds it

  /** A keyword argument's value. */
  datatype Arg = IntArg(number: int) | StrArg(text: string)

  /**
    `Job_Feedback(**kwargs)`: `similarity`, `id` and `feedback` are
    required; keywords that are not fields are ignored.
   */
  function JobFeedbackFromKwargs(kw: map<string, Arg>): (r: Result<JobFeedback, SO.ValidationError>)
    ensures r.Ok? <==> "similarity" in kw && kw["similarity"].IntArg? && "id" in kw && kw["id"].StrArg?
                       && "feedback" in kw && kw["feedback"].StrArg?
    ensures "id" !in kw ==> r == Err(SO.Missing("id"))
    ensures r.Ok? ==> r.value.similarity == kw["similarity"].number && r.value.id == kw["id"].text
                      && r.value.feedback == kw["feedback"].text
  {
    if "id" !in kw then Err(SO.Missing("id"))
    else if "similarity" !in kw then Err(SO.Missing("similarity"))
    else if "feedback" !in kw then Err(SO.Missing("feedback"))
    else if !kw["similarity"].IntArg? then Err(SO.NotAnInt("similarity"))
    else if !kw["id"].StrArg? then Err(SO.NotAString("id"))
    else if !kw["feedback"].StrArg? then Err(SO.NotAString("feedback"))
    else Ok(JobFeedback(kw["similarity"].number, kw["id"].text, kw["feedback"].text))
  }

  /** The keywords the node passes: the summary's id goes under `job_id`. */
  function AsWrittenKwargs(sf: SO.SimilarAndFeedback, s: JobSummary): map<string, Arg> {
    map["similarity" := IntArg(sf.similarity), "feedback" := StrArg(sf.feedback), "job_id" := StrArg(s.id)]
  }

  /** The feedback step as the node writes it: the record is built from AsWrittenKwargs. */
  function FeedbackAsWritten(ctx: FeedbackCtx, s: JobSummary): (r: Option<JobFeedback>)
    ensures r.None?
  {
    if ctx.resume.None? then None
    else match ctx.agent(ctx.resume.value.skills, ctx.resume.value.profile, s.jobSkills, s.jobInfo)
      case None => None
      case Some(sf) =>
        match JobFeedbackFromKwargs(AsWrittenKwargs(sf, s))
        case Ok(fb) => Some(fb)
        case Err(_) => None
  }

  /** The record the node builds lacks its required `id` and is refused. */
  lemma AsWrittenFeedbackIsRefused(sf: SO.SimilarAndFeedback, s: JobSummary)
    ensures JobFeedbackFromKwargs(AsWrittenKwargs(sf, s)) == Err(SO.Missing("id"))
    ensures JobFeedbackFromKwargs(AsWrittenKwargs(sf, s)["id" := StrArg(s.id)])
         == Ok(JobFeedback(sf.similarity, s.id, sf.feedback))
  {
  }

  /**
    As written, the feedback loop raises on the first summary whose id is
    new and returns no feedback at all; it succeeds only when every
    summary was already visited.
   */
  lemma AsWrittenFeedbackPassFails(summaries: seq<JobSummary>, ctx: FeedbackCtx, seen: set<Id>)
    ensures var p := D.DedupPass(ctx, summaries, SummaryKey, FeedbackAsWritten, seen);
      var firsts := D.Fresh(summaries, SummaryKey, seen);
      && p.out == []
      && (p.failed.None? <==> firsts == [])
      && (p.failed.Some? ==> p.failed.value == firsts[0].id)
  {
    D.PassWithFailingWork(ctx, summaries, SummaryKey, FeedbackAsWritten, seen);
  }

  /** A concrete run: one new summary, and the node as written raises on it. */
  lemma AsWrittenFeedbackExample(ctx: FeedbackCtx)
    requires ctx.resume.Some?
    ensures var s := JobSummary("Builds pipelines", ["SQL"], "4012");
      D.DedupPass(ctx, [s], SummaryKey, FeedbackAsWritten, {}).failed == Some("4012")
  {
    var s := JobSummary("Builds pipelines", ["SQL"], "4012");
    AsWrittenFeedbackPassFails([s], ctx, {});
    assert D.FirstNew([s], SummaryKey, {}, 0);
    assert D.Fresh([s], SummaryKey, {}) == [s];
  }
}
