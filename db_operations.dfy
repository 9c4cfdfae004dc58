/**
  Persistence of a run's results (src/db_operations.py). The database is
  three tables held in memory: listings keyed by job id, analyses keyed
  by the job id they describe, and the search history in insertion
  order. A Session holds the committed tables and the changes added
  since the last commit; lookups see both, as the ORM's autoflush makes
  them do. Committing either makes every pending change durable or, when
  the database refuses them, leaves the committed tables as they were.

  Whether the database accepts a commit is a parameter: the engine, its
  constraints and its I/O are not part of this model.
 */
module DbOperations {
  import opened Wrappers
  import opened State
  import D = Dedup

  /** A row of the listing table (JobListing). */
  datatype Listing = Listing(
    id: Id,
    title: string,
    companyName: string,
    location: string,
    applyUrl: string,
    description: string,
    postedDate: Option<string>)

  /** A row of the analysis table (JobAnalysis), stored under its job id, with the skills as a list. */
  datatype Analysis = Analysis(summary: string, skills: seq<string>, similarityScore: int, feedback: string)

  /** A row of the search-history table (SearchHistory). */
  datatype SearchRecord = SearchRecord(userQuery: string, resumeName: string)

  datatype Tables = Tables(listings: map<Id, Listing>, analyses: map<Id, Analysis>, history: seq<SearchRecord>)

  /** A change waiting in the session: a new row, or an analysis row written with new values. */
  datatype Change = AddListing(listing: Listing) | PutAnalysis(jobId: Id, analysis: Analysis) | AddHistory(record: SearchRecord)

  /** Why saving the results failed. */
  datatype DbError = CommitRefused

  function ApplyChange(t: Tables, c: Change): Tables {
    match c
    case AddListing(l) => t.(listings := t.listings[l.id := l])
    case PutAnalysis(id, a) => t.(analyses := t.analyses[id := a])
    case AddHistory(h) => t.(history := t.history + [h])
  }

  /** The tables with the pending changes applied in order. */
  function ApplyAll(t: Tables, cs: seq<Change>): Tables {
    if cs == [] then t else ApplyChange(ApplyAll(t, cs[..|cs| - 1]), cs[|cs| - 1])
  }

  class Session {
    var committed: Tables
    var pending: seq<Change>

    /** What a query in this session sees: the committed tables and the pending changes. */
    function View(): Tables
      reads this
    {
      ApplyAll(committed, pending)
    }

    constructor (db: Tables)
      ensures committed == db && pending == []
    {
      committed := db;
      pending := [];
    }

    /** `session.add`: the change waits for the next commit, and queries see it at once. */
    method Add(c: Change)
      modifies this
      ensures committed == old(committed) && pending == old(pending) + [c]
      ensures View() == ApplyChange(old(View()), c)
    {
      pending := pending + [c];
      assert pending[..|pending| - 1] == old(pending);
    }

    /** `session.get(JobListing, id)`. */
    method GetListing(id: Id) returns (l: Option<Listing>)
      ensures l.Some? <==> id in View().listings
      ensures l.Some? ==> l.value == View().listings[id]
    {
      var v := View();
      l := if id in v.listings then Some(v.listings[id]) else None;
    }

    /** The first analysis row for a job id, if any. */
    method FindAnalysis(jobId: Id) returns (a: Option<Analysis>)
      ensures a.Some? <==> jobId in View().analyses
      ensures a.Some? ==> a.value == View().analyses[jobId]
    {
      var v := View();
      a := if jobId in v.analyses then Some(v.analyses[jobId]) else None;
    }

    /**
      `session.commit()`: when the database accepts the pending changes
      they become the committed tables; otherwise nothing changes and the
      commit reports the failure.
     */
    method Commit(accepts: Tables -> bool) returns (ok: bool)
      modifies this
      ensures ok <==> accepts(old(View()))
      ensures ok ==> committed == old(View()) && pending == []
      ensures !ok ==> committed == old(committed) && pending == old(pending)
    {
      ok := accepts(View());
      if ok {
        committed := View();
        pending := [];
      }
    }

    /** `session.rollback()`: every pending change is discarded. */
    method Rollback()
      modifies this
      ensures committed == old(committed) && pending == []
    {
      pending := [];
    }
  }

  // ---------------------------------------------------------------------
  // The single-row operations

  /** The listing row made from a scraped job. */
  function ListingOf(job: Job): Listing {
    Listing(job.id, job.title, job.companyName, job.location, job.applyUrl, job.description, Some(job.postedDate))
  }

  /** The tables after saving one job: unchanged when its id has a listing, else with the new listing. */
  function SavedListing(t: Tables, job: Job): Tables {
    if job.id in t.listings then t else t.(listings := t.listings[job.id := ListingOf(job)])
  }

  /**
    save_job_listing: a job whose id already has a listing gets that
    listing back and nothing is added; otherwise one listing copied from
    the job is added.
   */
  method SaveJobListing(s: Session, job: Job) returns (l: Listing)
    modifies s
    ensures s.committed == old(s.committed)
    ensures job.id in old(s.View()).listings ==> l == old(s.View()).listings[job.id] && s.pending == old(s.pending)
    ensures job.id !in old(s.View()).listings ==> l == ListingOf(job) && s.pending == old(s.pending) + [AddListing(l)]
    ensures s.View() == SavedListing(old(s.View()), job)
  {
    var existing := s.GetListing(job.id);
    if existing.Some? {
      return existing.value;
    }
    l := ListingOf(job);
    s.Add(AddListing(l));
  }

  /** The analysis row for a job, from its summary and its feedback. */
  function AnalysisOf(summary: JobSummary, feedback: JobFeedback): Analysis {
    Analysis(summary.jobInfo, summary.jobSkills, feedback.similarity, feedback.feedback)
  }

  /**
    save_job_analysis: the analysis for `jobId` is overwritten with the
    summary's text and skills and the feedback's score and text, or
    inserted when there is none; either way the job's analysis then holds
    exactly those values.
   */
  method SaveJobAnalysis(s: Session, jobId: Id, summary: JobSummary, feedback: JobFeedback) returns (a: Analysis)
    modifies s
    ensures a == AnalysisOf(summary, feedback)
    ensures s.committed == old(s.committed) && s.pending == old(s.pending) + [PutAnalysis(jobId, a)]
    ensures s.View() == old(s.View()).(analyses := old(s.View()).analyses[jobId := a])
  {
    var existing := s.FindAnalysis(jobId);
    if existing.Some? {
      a := existing.value.(summary := summary.jobInfo, skills := summary.jobSkills,
                           similarityScore := feedback.similarity, feedback := feedback.feedback);
    } else {
      a := AnalysisOf(summary, feedback);
    }
    s.Add(PutAnalysis(jobId, a));
  }

  /** save_search_history: one history record is appended. */
  method SaveSearchHistory(s: Session, userQuery: string, resumeName: string) returns (h: SearchRecord)
    modifies s
    ensures h == SearchRecord(userQuery, resumeName)
    ensures s.committed == old(s.committed) && s.pending == old(s.pending) + [AddHistory(h)]
    ensures s.View() == old(s.View()).(history := old(s.View()).history + [h])
  {
    h := SearchRecord(userQuery, resumeName);
    s.Add(AddHistory(h));
  }

  // ---------------------------------------------------------------------
  // The lookup dictionaries

  /** No later item has the same id as item i. */
  predicate LastWith<T>(xs: seq<T>, key: T -> Id, i: nat)
    requires i < |xs|
  {
    forall j :: i < j < |xs| ==> key(xs[j]) != key(xs[i])
  }

  /** m maps the last item of every id of the list to that item. */
  ghost predicate HoldsLast<T>(xs: seq<T>, key: T -> Id, m: map<Id, T>) {
    forall i :: 0 <= i < |xs| && LastWith(xs, key, i) ==> key(xs[i]) in m && m[key(xs[i])] == xs[i]
  }

  /** m maps every id of the list, and only those, to the last item that has it. */
  ghost predicate IndexesLast<T>(xs: seq<T>, key: T -> Id, m: map<Id, T>) {
    m.Keys == D.KeysOf(xs, key) && HoldsLast(xs, key, m)
  }

  /**
    `{x.id: x for x in xs}`: a key for every id of the list, and under
    each id the last item that has it.
   */
  function LastById<T>(xs: seq<T>, key: T -> Id): (m: map<Id, T>)
    ensures IndexesLast(xs, key, m)
  {
    if xs == [] then map[]
    else
      var m := LastById(xs[..|xs| - 1], key);
      var x := xs[|xs| - 1];
      KeysStep(xs, key, m);
      HoldsLastStep(xs, key, m);
      m[key(x) := x]
  }

  /** Adding the last item under its id adds exactly its id to the keys. */
  lemma KeysStep<T>(xs: seq<T>, key: T -> Id, m: map<Id, T>)
    requires xs != [] && m.Keys == D.KeysOf(xs[..|xs| - 1], key)
    ensures m[key(xs[|xs| - 1]) := xs[|xs| - 1]].Keys == D.KeysOf(xs, key)
  {
    var x := xs[|xs| - 1];
    assert D.KeysOf(xs, key) == D.KeysOf(xs[..|xs| - 1], key) + {key(x)};
    assert m[key(x) := x].Keys == m.Keys + {key(x)};
  }

  /** Adding the last item of a list under its id keeps every other last item. */
  lemma HoldsLastStep<T>(xs: seq<T>, key: T -> Id, m: map<Id, T>)
    requires xs != [] && HoldsLast(xs[..|xs| - 1], key, m)
    ensures HoldsLast(xs, key, m[key(xs[|xs| - 1]) := xs[|xs| - 1]])
  {
    var x := xs[|xs| - 1];
    var m' := m[key(x) := x];
    forall i | 0 <= i < |xs| && LastWith(xs, key, i)
      ensures key(xs[i]) in m' && m'[key(xs[i])] == xs[i]
    {
      if i < |xs| - 1 {
        LastWithInit(xs, key, i);
      }
    }
  }

  /** An item that is the last with its id, before the end of the list, is so in the list without its last item. */
  lemma LastWithInit<T>(xs: seq<T>, key: T -> Id, i: nat)
    requires i < |xs| - 1 && LastWith(xs, key, i)
    ensures LastWith(xs[..|xs| - 1], key, i) && xs[..|xs| - 1][i] == xs[i] && key(xs[i]) != key(xs[|xs| - 1])
  {
    var init := xs[..|xs| - 1];
    forall j | i < j < |init| ensures key(init[j]) != key(init[i]) {
      assert init[j] == xs[j];
    }
  }

  /** The ids of a list of summaries, in order. */
  function SummaryIds(ss: seq<JobSummary>): (ids: seq<Id>)
    ensures |ids| == |ss| && forall k :: 0 <= k < |ss| ==> ids[k] == ss[k].id
  {
    seq(|ss|, k requires 0 <= k < |ss| => ss[k].id)
  }

  /** `summaries_dict.keys()`: each id once, in the order of its first occurrence. */
  function DictKeys(ss: seq<JobSummary>): seq<Id> {
    SummaryIds(D.Fresh(ss, SummaryKey, {}))
  }

  /** The keys of the summary dictionary are the summaries' ids, each listed once. */
  lemma DictKeysAreTheIds(ss: seq<JobSummary>)
    ensures forall id :: id in DictKeys(ss) <==> id in D.KeysOf(ss, SummaryKey)
    ensures forall a, b :: 0 <= a < b < |DictKeys(ss)| ==> DictKeys(ss)[a] != DictKeys(ss)[b]
  {
    var f := D.Fresh(ss, SummaryKey, {});
    D.FreshKeySet(ss, SummaryKey, {});
    D.FreshDistinctUnseen(ss, SummaryKey, {});
    forall id ensures id in DictKeys(ss) <==> id in D.KeysOf(f, SummaryKey) {
      if id in DictKeys(ss) {
        var k :| 0 <= k < |f| && DictKeys(ss)[k] == id;
        assert SummaryKey(f[k]) == id;
      }
      if id in D.KeysOf(f, SummaryKey) {
        var k :| 0 <= k < |f| && SummaryKey(f[k]) == id;
        assert DictKeys(ss)[k] == id;
      }
    }
  }

  // ---------------------------------------------------------------------
  // save_workflow_results

  /** The tables after the listing loop over `jobs`. */
  function SavedListings(t: Tables, jobs: seq<Job>): Tables {
    if jobs == [] then t else SavedListing(SavedListings(t, jobs[..|jobs| - 1]), jobs[|jobs| - 1])
  }

  /** The tables after the analysis loop over `ids`; only ids with a feedback get an analysis. */
  function SavedAnalyses(t: Tables, ids: seq<Id>, sums: map<Id, JobSummary>, fbs: map<Id, JobFeedback>): Tables
    requires forall k :: 0 <= k < |ids| ==> ids[k] in sums
  {
    if ids == [] then t
    else
      var id := ids[|ids| - 1];
      var before := SavedAnalyses(t, ids[..|ids| - 1], sums, fbs);
      if id in fbs then before.(analyses := before.analyses[id := AnalysisOf(sums[id], fbs[id])])
      else before
  }

  /** Every summary id is a key of the summary dictionary. */
  lemma DictKeysInDict(ss: seq<JobSummary>)
    ensures forall k :: 0 <= k < |DictKeys(ss)| ==> DictKeys(ss)[k] in LastById(ss, SummaryKey)
  {
    DictKeysAreTheIds(ss);
  }

  /** The tables as save_workflow_results leaves them when the commit goes through. */
  function WorkflowResult(t: Tables, userQuery: string, resumeName: string, jobs: seq<Job>,
                          summaries: seq<JobSummary>, feedbacks: seq<JobFeedback>): Tables
  {
    var withHistory := t.(history := t.history + [SearchRecord(userQuery, resumeName)]);
    DictKeysInDict(summaries);
    SavedAnalyses(SavedListings(withHistory, jobs), DictKeys(summaries),
                  LastById(summaries, SummaryKey), LastById(feedbacks, FeedbackKey))
  }

  /** The listing loop of save_workflow_results: save_job_listing for each job in turn. */
  method SaveListingsLoop(s: Session, jobs: seq<Job>)
    modifies s
    ensures s.committed == old(s.committed)
    ensures s.View() == SavedListings(old(s.View()), jobs)
  {
    ghost var start := s.View();
    var i := 0;
    while i < |jobs|
      invariant 0 <= i <= |jobs|
      invariant s.committed == old(s.committed)
      invariant s.View() == SavedListings(start, jobs[..i])
    {
      assert jobs[..i + 1][..i] == jobs[..i];
      var _ := SaveJobListing(s, jobs[i]);
      i := i + 1;
    }
    assert jobs[..i] == jobs;
  }

  /** The analysis loop of save_workflow_results: save_job_analysis for each summary id that has a feedback. */
  method SaveAnalysesLoop(s: Session, ids: seq<Id>, sums: map<Id, JobSummary>, fbs: map<Id, JobFeedback>)
    requires forall k :: 0 <= k < |ids| ==> ids[k] in sums
    modifies s
    ensures s.committed == old(s.committed)
    ensures s.View() == SavedAnalyses(old(s.View()), ids, sums, fbs)
  {
    ghost var start := s.View();
    var k := 0;
    while k < |ids|
      invariant 0 <= k <= |ids|
      invariant s.committed == old(s.committed)
      invariant s.View() == SavedAnalyses(start, ids[..k], sums, fbs)
    {
      assert ids[..k + 1][..k] == ids[..k];
      var id := ids[k];
      if id in fbs {
        var _ := SaveJobAnalysis(s, id, sums[id], fbs[id]);
      }
      k := k + 1;
    }
    assert ids[..k] == ids;
  }

  /**
    save_workflow_results: one history record, a listing for every new
    job id, an analysis for every id that has both a summary and a
    feedback, then one commit. If the database refuses the commit, every
    pending change is rolled back and the error is raised, so nothing of
    the call is stored.
   */
  method SaveWorkflowResults(s: Session, userQuery: string, resumeName: string, jobs: seq<Job>,
                             summaries: seq<JobSummary>, feedbacks: seq<JobFeedback>, accepts: Tables -> bool)
    returns (r: Result<(), DbError>)
    modifies s
    ensures s.pending == []
    ensures var expected := WorkflowResult(old(s.View()), userQuery, resumeName, jobs, summaries, feedbacks);
      && (accepts(expected) ==> r.Ok? && s.committed == expected)
      && (!accepts(expected) ==> r == Err(CommitRefused) && s.committed == old(s.committed))
  {
    var _ := SaveSearchHistory(s, userQuery, resumeName);
    SaveListingsLoop(s, jobs);
    var sums := LastById(summaries, SummaryKey);
    var fbs := LastById(feedbacks, FeedbackKey);
    DictKeysInDict(summaries);
    SaveAnalysesLoop(s, DictKeys(summaries), sums, fbs);
    var ok := s.Commit(accepts);
    if !ok {
      s.Rollback();
      return Err(CommitRefused);
    }
    return Ok(());
  }

  // ---------------------------------------------------------------------
  // What a saved run leaves in the tables

  /**
    The listing loop keeps every listing there was, adds listings for
    exactly the job ids that had none, and touches no other table.
   */
  lemma {:induction false} SavedListingsKeep(t: Tables, jobs: seq<Job>)
    ensures var r := SavedListings(t, jobs);
      && r.analyses == t.analyses && r.history == t.history
      && r.listings.Keys == t.listings.Keys + D.KeysOf(jobs, JobKey)
      && (forall id :: id in t.listings ==> r.listings[id] == t.listings[id])
  {
    if jobs != [] {
      var init := jobs[..|jobs| - 1];
      SavedListingsKeep(t, init);
      assert D.KeysOf(jobs, JobKey) == D.KeysOf(init, JobKey) + {jobs[|jobs| - 1].id};
    }
  }

  /** The listing added for a new id is copied from the first job with that id. */
  lemma {:induction false} SavedListingsCopyFirst(t: Tables, jobs: seq<Job>, i: nat)
    requires i < |jobs| && D.FirstNew(jobs, JobKey, t.listings.Keys, i)
    ensures jobs[i].id in SavedListings(t, jobs).listings
    ensures SavedListings(t, jobs).listings[jobs[i].id] == ListingOf(jobs[i])
  {
    var init := jobs[..|jobs| - 1];
    var x := jobs[|jobs| - 1];
    SavedListingsKeep(t, init);
    if i < |init| {
      D.FirstNewPrefix(jobs, JobKey, t.listings.Keys, |init|, i);
      assert init[i] == jobs[i];
      SavedListingsCopyFirst(t, init, i);
    } else {
      D.FirstNewLast(jobs, JobKey, t.listings.Keys);
    }
  }

  /**
    The analysis loop writes an analysis, built from the dictionaries'
    entries, for exactly the listed ids that have a feedback; every other
    analysis, and every other table, stays as it was.
   */
  lemma {:induction false} SavedAnalysesEffect(t: Tables, ids: seq<Id>, sums: map<Id, JobSummary>, fbs: map<Id, JobFeedback>)
    requires forall k :: 0 <= k < |ids| ==> ids[k] in sums
    ensures var r := SavedAnalyses(t, ids, sums, fbs);
      && r.listings == t.listings && r.history == t.history
      && (forall id :: id in r.analyses <==> id in t.analyses || (id in ids && id in fbs))
      && (forall id :: id in ids && id in fbs ==> r.analyses[id] == AnalysisOf(sums[id], fbs[id]))
      && (forall id :: id in t.analyses && !(id in ids && id in fbs) ==> r.analyses[id] == t.analyses[id])
  {
    if ids != [] {
      var init := ids[..|ids| - 1];
      SavedAnalysesEffect(t, init, sums, fbs);
      assert forall id :: id in ids <==> id in init || id == ids[|ids| - 1];
    }
  }

  /**
    What a committed save_workflow_results stores: exactly one more
    history record; a listing for every job, with the listings that were
    there untouched and no listing for anything else; and an analysis for
    exactly the ids that have both a summary and a feedback, built from the
    last summary and the last feedback with that id, every other analysis
    unchanged.
   */
  lemma WorkflowResultEffect(t: Tables, userQuery: string, resumeName: string, jobs: seq<Job>,
                             summaries: seq<JobSummary>, feedbacks: seq<JobFeedback>)
    ensures var r := WorkflowResult(t, userQuery, resumeName, jobs, summaries, feedbacks);
      && r.history == t.history + [SearchRecord(userQuery, resumeName)]
      && (forall i :: 0 <= i < |jobs| ==> jobs[i].id in r.listings)
      && (forall id :: id in t.listings ==> id in r.listings && r.listings[id] == t.listings[id])
      && (forall id :: id in r.listings ==> id in t.listings || id in D.KeysOf(jobs, JobKey))
      && (forall i :: 0 <= i < |jobs| && D.FirstNew(jobs, JobKey, t.listings.Keys, i) ==> r.listings[jobs[i].id] == ListingOf(jobs[i]))
      && (forall id :: id in r.analyses <==>
            id in t.analyses || (id in D.KeysOf(summaries, SummaryKey) && id in D.KeysOf(feedbacks, FeedbackKey)))
      && (forall i, j ::
            (0 <= i < |summaries| && 0 <= j < |feedbacks| && LastWith(summaries, SummaryKey, i)
             && LastWith(feedbacks, FeedbackKey, j) && summaries[i].id == feedbacks[j].id) ==>
            r.analyses[summaries[i].id] == AnalysisOf(summaries[i], feedbacks[j]))
      && (forall id :: id in t.analyses && !(id in D.KeysOf(summaries, SummaryKey) && id in D.KeysOf(feedbacks, FeedbackKey)) ==>
            r.analyses[id] == t.analyses[id])
  {
    var withHistory := t.(history := t.history + [SearchRecord(userQuery, resumeName)]);
    var sums := LastById(summaries, SummaryKey);
    var fbs := LastById(feedbacks, FeedbackKey);
    DictKeysInDict(summaries);
    DictKeysAreTheIds(summaries);
    SavedListingsKeep(withHistory, jobs);
    forall i | 0 <= i < |jobs| && D.FirstNew(jobs, JobKey, t.listings.Keys, i)
      ensures SavedListings(withHistory, jobs).listings[jobs[i].id] == ListingOf(jobs[i])
    {
      SavedListingsCopyFirst(withHistory, jobs, i);
    }
    SavedAnalysesEffect(SavedListings(withHistory, jobs), DictKeys(summaries), sums, fbs);
  }

  /** A job list whose ids all have listings adds nothing. */
  lemma {:induction false} SavedListingsOfKnownJobs(t: Tables, jobs: seq<Job>)
    requires D.KeysOf(jobs, JobKey) <= t.listings.Keys
    ensures SavedListings(t, jobs) == t
  {
    if jobs != [] {
      var init := jobs[..|jobs| - 1];
      assert D.KeysOf(jobs, JobKey) == D.KeysOf(init, JobKey) + {jobs[|jobs| - 1].id};
      SavedListingsOfKnownJobs(t, init);
    }
  }

  /** The analysis loop changes no analysis that already holds what it would write. */
  lemma {:induction false} SavedAnalysesStable(t: Tables, ids: seq<Id>, sums: map<Id, JobSummary>, fbs: map<Id, JobFeedback>)
    requires forall k :: 0 <= k < |ids| ==> ids[k] in sums
    requires forall k :: 0 <= k < |ids| && ids[k] in fbs ==>
               ids[k] in t.analyses && t.analyses[ids[k]] == AnalysisOf(sums[ids[k]], fbs[ids[k]])
    ensures SavedAnalyses(t, ids, sums, fbs) == t
  {
    if ids != [] {
      SavedAnalysesStable(t, ids[..|ids| - 1], sums, fbs);
    }
  }

  /**
    Saving the same results twice stores the same listings and analyses
    as saving them once (an upsert keyed by id); only the history grows.
   */
  lemma SavingTwiceIsSavingOnce(t: Tables, userQuery: string, resumeName: string, jobs: seq<Job>,
                                summaries: seq<JobSummary>, feedbacks: seq<JobFeedback>)
    ensures var once := WorkflowResult(t, userQuery, resumeName, jobs, summaries, feedbacks);
      var twice := WorkflowResult(once, userQuery, resumeName, jobs, summaries, feedbacks);
      && twice.listings == once.listings && twice.analyses == once.analyses
      && twice.history == once.history + [SearchRecord(userQuery, resumeName)]
  {
    var rec := SearchRecord(userQuery, resumeName);
    var sums := LastById(summaries, SummaryKey);
    var fbs := LastById(feedbacks, FeedbackKey);
    var ids := DictKeys(summaries);
    DictKeysInDict(summaries);
    var h0 := t.(history := t.history + [rec]);
    var l0 := SavedListings(h0, jobs);
    var once := SavedAnalyses(l0, ids, sums, fbs);
    SavedListingsKeep(h0, jobs);
    SavedAnalysesEffect(l0, ids, sums, fbs);
    var h1 := once.(history := once.history + [rec]);
    assert D.KeysOf(jobs, JobKey) <= h1.listings.Keys;
    SavedListingsOfKnownJobs(h1, jobs);
    SavedAnalysesStable(h1, ids, sums, fbs);
  }

  /** Every id of a list has a last item with it. */
  lemma {:induction false} LastIndex<T>(xs: seq<T>, key: T -> Id, id: Id) returns (i: nat)
    requires id in D.KeysOf(xs, key)
    ensures i < |xs| && key(xs[i]) == id && LastWith(xs, key, i)
  {
    var init := xs[..|xs| - 1];
    assert D.KeysOf(xs, key) == D.KeysOf(init, key) + {key(xs[|xs| - 1])};
    if key(xs[|xs| - 1]) == id {
      i := |xs| - 1;
    } else {
      i := LastIndex(init, key, id);
      assert init[i] == xs[i];
      forall j | i < j < |xs| ensures key(xs[j]) != key(xs[i]) {
        if j < |init| { assert init[j] == xs[j]; }
      }
    }
  }
}
