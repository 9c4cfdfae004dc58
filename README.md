# Job AI Agent: a verified model of the pipeline core

This project models the core of the Job AI Agent in Dafny. The agent is a
LangGraph pipeline. It turns a natural-language query into LinkedIn search
parameters, scrapes listings, summarizes each new listing, scores each new
summary against a resume, and stores the results in a SQL database.

The model covers:

- **Workflow nodes** (`nodes.dfy`, module `Nodes`). Covered:
  - the parameter dump and the collect loop of `job_searching_node`;
  - the two deduplicating loops, `extract_fields_from_job_desc` and
    `Feedback_and_similarity`.

  The loops are imperative methods. They mutate a shared `VisitedSet`
  object in place, and each is proved equal to a pure specification pass.
  Agents and the scraper are function parameters: each answers `None`
  where the real call raises.
- **Deduplication engine** (`dedup.dfy`, module `Dedup`). Holds the pure
  specification that both loops share: a pass with test-and-set over an
  id set. Also holds the lemmas about it: first-occurrence order, at most
  once per id, monotone visited sets, idempotence, concatenation, and
  where a failure happens.
- **State and merge rule** (`state.dfy`, module `State`). Covers the record
  shapes and `GraphState`. Two fields, `job_summaries` and
  `job_feedbacks`, accumulate by list concatenation. Every other field
  takes the last value written to it.
- **Topology** (`graph.dfy`, module `Graph`). The `StateGraph` builder is a
  class, and `Workflow.__init__` fills it with five nodes and seven edges.
  Properties proved over that edge list:
  - acyclicity and reachability;
  - readiness, meaning a node may run once all its predecessors have run,
    and the fan-in join that follows from it;
  - sequential runs that respect readiness;
  - supersteps, where a node runs in the step after a predecessor ran.
- **Structured outputs** (`structure_outputs.dfy` and `structure_output.dfy`,
  modules `StructureOutputs` and `StructureOutput`). Covers:
  - the `JobInfo` defaults and the bounds on `limit`;
  - the `"r" + seconds` date filter;
  - the enum-to-code tables, with their round trips;
  - the `Resume` sentinel defaults and `SimilarAndFeedback`.

  `decimal.dfy` (module `Decimal`) holds Python's `str(int)` and its
  inverse.
- **Persistence** (`db_operations.dfy`, module `DbOperations`). A `Session`
  class holds the committed tables and the changes added since the last
  commit. Lookups see both, as the ORM's autoflush makes them do. Modelled
  operations: the save functions, the two lookup dictionaries, and
  `save_workflow_results` with its all-or-nothing commit and rollback.
  `wrappers.dfy` holds `Option` and `Result`.

## Model

| member | source | states |
|---|---|---|
| Nodes.ScraperInput | src/nodes.py:68-72 | The dump never holds `days`, `jobType`, `experience_level` or any null value. It holds exactly the non-None fields with their values, plus the computed `datePosted`, `remote` and `experienceLevel`. It fails exactly when `days` is None. |
| Nodes.DefaultScraperInput | src/nodes.py:68-72 | With all defaults the scraper is asked for `datePosted` "r604800" and `limit` 3, and gets no `title` or `remote`. |
| Nodes.JobFromItem | src/nodes.py:82 | `Job(**item)` succeeds exactly when every Job field is a string in the item, and then each field of the job is the item's value. |
| Nodes.JobFromItemOfFields | src/nodes.py:82 | An item carrying a job's fields gives back exactly that job. |
| Nodes.JobFromItemIgnoresExtraKeys | src/nodes.py:82 | A key that is not a Job field does not change the outcome. |
| Nodes.JobFieldsInjective | src/state.py:38-56 | A job is determined by its nineteen field values. |
| Nodes.AllOkMeaning | src/nodes.py:80-82 | The collect walk succeeds exactly when every item converts, and then holds the converted items in order. Otherwise it fails with the error of the first failing item, all items before it having converted. |
| Nodes.AllOkErrorStays | src/nodes.py:80-82 | An error among the first n items is the error of the whole walk: later items are never examined. |
| Nodes.CollectJobs | src/nodes.py:80-82 | The loop's result equals the collect walk over the items: the jobs in scraper order, or the first conversion error. |
| Nodes.JobSearchingNode | src/nodes.py:59-89 | The node fails if the input agent raises, if `days` is None, if the scraper raises, or on the first invalid item. Otherwise its update writes only `jobs`, and `jobs` is the collected list. |
| Nodes.SummarizeJob | src/nodes.py:192-200 | A summary exists exactly when the agent answers for the description, and it carries the job's id with the agent's text and skills. |
| Nodes.SummaryOutcome | src/nodes.py:206-211 | A successful pass returns an update that writes only `job_summaries` and `visited_ids`. A failed pass returns the exception raised on the failing id. |
| Nodes.SummaryStep | src/nodes.py:186-201 | One loop iteration: a visited id leaves the pass unchanged, and a new id either appends its summary and marks the id, or stops the whole pass there with the id marked. |
| Nodes.ExtractFieldsFromJobDesc | src/nodes.py:182-211 | The in-place visited set ends as the specification pass's visited set, including when the agent raises. The result is that pass's outcome. |
| Nodes.SummariesOfFreshJobs | src/nodes.py:186-201 | One summary per first occurrence of an unvisited id, in job order. Each summary carries that job's id and the agent's answer for its description. |
| Nodes.SummaryIdsAreNew | src/nodes.py:187-189 | Summary ids are pairwise distinct and were not visited before. Their number is the number of distinct new ids, so a repeated id is summarized once. |
| Nodes.SummaryVisitedSet | src/nodes.py:182-207 | The returned visited set contains the incoming one. On success it is the incoming set plus every job id. |
| Nodes.SummaryPassIdempotent | src/nodes.py:187-207 | Re-running with the returned visited set yields no summaries and the same set. |
| Nodes.SummaryPassFailure | src/nodes.py:189-194 | When the agent raises, it is on the first occurrence of a new id. The pass up to that job succeeded, and the id is already in the visited set. |
| Nodes.FeedbackFor | src/nodes.py:241-260 | A feedback exists exactly when resume fields are stored and the agent answers. It carries the summary's id and the agent's similarity and text. |
| Nodes.FeedbackOutcome | src/nodes.py:266-271 | A successful pass returns an update that writes only `job_feedbacks` and `visited_ids_feedback`. A failed pass returns the exception. |
| Nodes.FeedbackStep | src/nodes.py:236-261 | One loop iteration of the feedback loop, with the same three cases as `SummaryStep`. |
| Nodes.FeedbackAndSimilarity | src/nodes.py:232-271 | The in-place visited set ends as the specification pass's visited set, and the result is that pass's outcome. |
| Nodes.FeedbacksOfFreshSummaries | src/nodes.py:236-261 | One feedback per first occurrence of an unvisited summary id, in order. Each carries that summary's id and what the agent answered for the same resume skills and profile with that summary's skills and text. |
| Nodes.FeedbackIdsAreNew | src/nodes.py:237-239 | Feedback ids are pairwise distinct and new, one per distinct new summary id. |
| Nodes.FeedbackPassIdempotent | src/nodes.py:237-267 | Re-running with the returned visited set yields no feedback. |
| Nodes.JobFeedbackFromKwargs | src/state.py:104-115 | `Job_Feedback(**kw)` succeeds exactly when `similarity`, `id` and `feedback` are present with the right types, and ignores other keywords. A missing `id` is reported. |
| Nodes.FeedbackAsWritten | src/nodes.py:256-260 | Building the record with `job_id=` never yields a feedback. |
| Nodes.AsWrittenFeedbackIsRefused | src/nodes.py:256-260 | The keywords the node passes lack `id` and are refused. The same keywords with `id` give the intended record. |
| Nodes.AsWrittenFeedbackPassFails | src/nodes.py:236-267 | As written, the loop produces no feedback and raises on the first new summary id. It succeeds only if every id was already visited. |
| Nodes.AsWrittenFeedbackExample | src/nodes.py:256-260 | One new summary with id "4012" makes the as-written loop raise on "4012". |
| Dedup.VisitedSet.TestAndSet | src/nodes.py:187-189 | Reports whether the id was absent, and the set gains exactly that id. |
| Dedup.KeysOf | src/nodes.py:186-189 | The id set of a list contains every item's id and nothing else. |
| Dedup.PassSeen | src/nodes.py:182-207 | The visited set only grows, and only by ids of the list. A successful pass has visited every id, and a failure reports an id it newly visited. |
| Dedup.PassMatchesFresh | src/nodes.py:186-201 | A successful pass's output is the work applied to the first occurrences of unseen ids, in order. |
| Dedup.FreshDistinctUnseen | src/nodes.py:187-189 | First occurrences have pairwise distinct ids, none of them seen. |
| Dedup.FreshKeySet | src/nodes.py:187-189 | The ids of the first occurrences are exactly the list's ids minus the seen ones. |
| Dedup.FreshCount | src/nodes.py:187-189 | There are as many first occurrences as distinct unseen ids. |
| Dedup.DistinctKeysCount | src/nodes.py:187-189 | A list with distinct ids has as many ids as items. |
| Dedup.PassSkipsSeen | src/nodes.py:187 | When every id is already seen, the pass produces nothing and changes nothing. |
| Dedup.PassIdempotent | src/nodes.py:187-207 | A second pass with the returned visited set produces nothing. |
| Dedup.PassConcat | src/nodes.py:186-207 | A pass over `a + b` is a pass over `a` followed by a pass over `b` from the visited set the first returned. |
| Dedup.PassFailure | src/nodes.py:189-194 | A failed pass failed at an index i. Item i is the first new occurrence of its id, the work failed on it, the pass before it succeeded, and the failure adds exactly that id. |
| Dedup.PassFailedStays | src/nodes.py:189-194 | Once the pass fails, later items change nothing. |
| Dedup.PassWithFailingWork | src/nodes.py:236-267 | With work that always fails, the pass produces nothing. It fails exactly when some id is new, and it reports the first such id. |
| State.MergeChangesOnlyWrittenFields | src/state.py:159-168 | A field the update does not name is unchanged, and a written last-value field takes the written value. |
| State.MergeAppends | src/state.py:165-167 | Each accumulator's new value is the old list followed by the delta. |
| State.MergeEmptyDelta | src/state.py:165-167 | No update, or empty deltas, leave the state as it was. |
| State.MergeAssociative | src/state.py:165-167 | Two merges in a row equal one merge of the composed update. |
| State.MergeOrderKeepsEntries | src/state.py:165-167 | In either order two deltas leave the same multiset of entries in each accumulator. |
| State.DisjointUpdatesCommute | src/state.py:159-168 | Updates that write disjoint fields give the same state in either order. |
| State.DedupScopesAreSeparate | src/state.py:164-168 | Writing one visited set leaves the other unchanged. |
| State.InitialState | main.py:35-39 | The invocation input holds the query and the two visited sets, with empty accumulators and every other field unset. |
| Graph.Workflow.constructor | src/graph.py:46-71 | The builder ends with exactly the five nodes and the seven edges, in declaration order. |
| Graph.WorkflowNodeSet | src/graph.py:51-55 | There are five distinct named nodes, which are every node other than START and END. |
| Graph.NameInjective | src/graph.py:51-55 | Distinct nodes are registered under distinct names. |
| Graph.EdgesJoinDeclaredNodes | src/graph.py:59-71 | Every edge joins declared nodes, and none enters START or leaves END. |
| Graph.StartSuccessors | src/graph.py:59-63 | START's successors are exactly `job_searching_node` and `resume_text_extractor`. |
| Graph.BranchesAreChains | src/graph.py:59-64 | Each branch is a two-node chain with a single predecessor at each step. |
| Graph.FanIn | src/graph.py:66-71 | The feedback node's predecessors are exactly the two chain ends. It is the sole predecessor of END, and END has no successors. |
| Graph.FeedbackWaitsForBoth | src/graph.py:26-29 | The feedback node is ready exactly when both chain ends are done. |
| Graph.PathGoesDeeper | src/graph.py:59-71 | Along any path the depth grows by at least one per edge. |
| Graph.Acyclic | src/graph.py:59-71 | No path of one or more edges returns to its start, and no path has more than five nodes. |
| Graph.Through | src/graph.py:59-71 | For every node there is a path from START to END through it. |
| Graph.EveryNodeIsOnAPath | src/graph.py:59-71 | Every node is reachable from START, and END is reachable from every node. |
| Graph.ValidRunRunsReadyNodes | src/graph.py:26-29 | In a valid sequential run each node is ready when it runs. |
| Graph.SomeRunIsValid | src/graph.py:22-29 | A valid sequential run exists. |
| Graph.PredecessorRunsFirst | src/graph.py:59-71 | In a valid run, every edge's source runs before its target. |
| Graph.ValidRunShape | src/graph.py:22-29 | Every valid run has seven steps, starts at START, ends at END, and runs the feedback node after both chain ends. |
| Graph.SuperstepsOfWorkflow | src/graph.py:22-29 | The steps are the two branch heads, the two chain ends, the feedback node, END, and then nothing. |
| Graph.LaterSuperstepsAreEmpty | src/graph.py:71 | Every step from the fifth on is empty. |
| Graph.FeedbackRunsOnceAfterBoth | src/graph.py:66-68 | The feedback node runs in exactly one step, the one after both chain ends ran together. |
| StructureOutputs.ParseJobType | src/structure_outputs.py:13-24 | A parsed arrangement has the given value. |
| StructureOutputs.ParseJobTypeValue | src/structure_outputs.py:13-24 | Every arrangement parses back from its value. |
| StructureOutputs.ParseExperienceLevelValue | src/structure_outputs.py:27-44 | Every level parses back from its value. |
| StructureOutputs.MakeJobInfo | src/structure_outputs.py:65-110 | The record is built exactly when a given `limit` lies in [1, 3]. The built record is valid, and a refused one reports the out-of-range limit. |
| StructureOutputs.LimitIsValidatedNotClamped | src/structure_outputs.py:104-110 | An in-range limit is kept as given, and an out-of-range one is refused rather than clamped. |
| StructureOutputs.DatePosted | src/structure_outputs.py:112-121 | Computing the field fails exactly when `days` is None. Otherwise the value starts with "r". |
| StructureOutputs.DatePostedRoundTrip | src/structure_outputs.py:112-121 | The digits after "r" read back as `days * 86400`. |
| StructureOutputs.DatePostedInjective | src/structure_outputs.py:112-121 | Different day counts give different filters. |
| StructureOutputs.DefaultJobInfo | src/structure_outputs.py:75-121 | With nothing given, `days` is 7, `limit` is 3, `title` and `jobType` are None, and `datePosted` is "r604800". |
| StructureOutputs.RemoteCodes | src/structure_outputs.py:135-141 | The code list has the same length as the arrangements, with ONSITE, REMOTE and HYBRID coded as '1', '2' and '3' at the same positions. |
| StructureOutputs.Remote | src/structure_outputs.py:132-141 | `remote` is None exactly when `jobType` is None or empty, and otherwise it is the code list. |
| StructureOutputs.RemoteCodeInjective | src/structure_outputs.py:135-139 | Distinct arrangements have distinct codes. |
| StructureOutputs.RemoteCodesRoundTrip | src/structure_outputs.py:135-141 | Decoding the code list gives back the arrangements. |
| StructureOutputs.ExperienceCodes | src/structure_outputs.py:155-164 | The code list has the same length as the levels, with Internship through Executive coded as "1" through "6" at the same positions. |
| StructureOutputs.ExperienceLevelField | src/structure_outputs.py:152-164 | `experienceLevel` is None exactly when `experience_level` is None or empty, and otherwise it is the code list. |
| StructureOutputs.ExperienceCodeInjective | src/structure_outputs.py:155-162 | Distinct levels have distinct codes. |
| StructureOutputs.ExperienceCodesRoundTrip | src/structure_outputs.py:155-164 | Decoding the code list gives back the levels. |
| StructureOutputs.MakeResume | src/structure_outputs.py:179-201 | A field left out takes its sentinel: ['No skills'], 'No profile', ['No Projects'], ['No Certifications'], ['No Experience'], and the string '[No Education]'. A given value is kept, and None is refused. |
| StructureOutputs.EmptyListIsNotReplaced | src/structure_outputs.py:179-182 | An explicitly empty list stays empty. |
| StructureOutputs.MakeSimilarAndFeedback | src/structure_outputs.py:213-220 | `similarity` is required and unbounded, and `feedback` defaults to 'No feedback'. |
| StructureOutput.MakeJobInfo | src/structure_output.py:24-34 | The record is built exactly when a given `limit` lies in [1, 3]. `days` defaults to 7, `limit` defaults to 3, and a given limit is kept. |
| StructureOutput.DatePosted | src/structure_output.py:36-39 | Computing `date_posted` fails exactly when `days` is None, and otherwise it starts with "r". |
| StructureOutput.DatePostedAgreesWithNewer | src/structure_output.py:36-39 | Both variants render the same filter for the same days, and its digits read back as `days * 86400`. |
| StructureOutput.JobTypeCodeList | src/structure_output.py:47-53 | The list has the same length as `jobType`, with ONSITE, REMOTE and HYBRID coded as 1, 2 and 3 in order. |
| StructureOutput.JobTypeCodes | src/structure_output.py:41-53 | `job_type_codes` is None exactly for a None or empty `jobType`, and otherwise it is the code list. |
| StructureOutput.JobTypeCodeMatchesRemoteCode | src/structure_output.py:47-51 | The integer codes are the newer variant's string codes read as numbers. |
| StructureOutput.JobTypeCodesRoundTrip | src/structure_output.py:47-53 | Decoding gives back the arrangements. |
| StructureOutput.ContractCodeList | src/structure_output.py:61-70 | The list has the same length as the contract types, coded F/P/C/T/I/A at the same positions. |
| StructureOutput.ContractCodes | src/structure_output.py:55-70 | `contract_codes` is None exactly for a None or empty `typeOfContract`, and otherwise it is the code list. |
| StructureOutput.ContractCodeInjective | src/structure_output.py:61-68 | Distinct contract types have distinct codes. |
| StructureOutput.ContractCodesRoundTrip | src/structure_output.py:61-70 | Decoding gives back the contract types. |
| StructureOutput.ContractCodesMatchDocumentation | src/structure_output.py:10-22 | Row k of the documented table holds the code of the k-th contract type. Its name is the enum value with '-' for '_'. |
| Decimal.IntToStringRoundTrip | src/structure_outputs.py:121 | `str(i)` reads back as i. |
| Decimal.IntToStringInjective | src/structure_outputs.py:121 | Distinct ints render differently. |
| DbOperations.Session.Add | src/db_operations.py:48 | The change is pending, and the session's view is the old view with the change applied. |
| DbOperations.Session.GetListing | src/db_operations.py:31 | The lookup finds a listing exactly when the view holds one under the id, and returns it. |
| DbOperations.Session.FindAnalysis | src/db_operations.py:72-73 | The lookup finds an analysis exactly when the view holds one for the job id, and returns it. |
| DbOperations.Session.Commit | src/db_operations.py:213 | An accepted commit makes the view the committed tables with nothing pending. A refused commit changes nothing. |
| DbOperations.Session.Rollback | src/db_operations.py:217 | Every pending change is discarded, and the committed tables stay as they were. |
| DbOperations.SaveJobListing | src/db_operations.py:19-50 | A job whose id has a listing gets that listing back and nothing is added. Otherwise exactly one listing copied from the job is added. |
| DbOperations.SaveJobAnalysis | src/db_operations.py:53-95 | Afterwards the job's analysis holds exactly the summary's text and skills and the feedback's score and text, whether it was updated or inserted. |
| DbOperations.SaveSearchHistory | src/db_operations.py:98-121 | Exactly one history record with the query and resume name is appended. |
| DbOperations.LastById | src/db_operations.py:199-200 | The dictionary's keys are exactly the list's ids, and under each id is the last item with that id. |
| DbOperations.LastIndex | src/db_operations.py:199-200 | Every id of a list has a last item carrying it. |
| DbOperations.DictKeysAreTheIds | src/db_operations.py:199-203 | The dictionary's keys, in insertion order, are the distinct summary ids in order of first appearance. |
| DbOperations.SaveListingsLoop | src/db_operations.py:195-196 | The listing loop saves each job in turn. |
| DbOperations.SaveAnalysesLoop | src/db_operations.py:203-210 | The analysis loop saves an analysis for each summary id that has a feedback, in order. |
| DbOperations.SaveWorkflowResults | src/db_operations.py:171-219 | Nothing is left pending. An accepted commit stores exactly the workflow result, and a refused one leaves the committed tables unchanged and raises. |
| DbOperations.SavedListingsKeep | src/db_operations.py:195-196 | The listing loop keeps every listing there was, adds listings for exactly the new job ids, and touches no other table. |
| DbOperations.SavedListingsCopyFirst | src/db_operations.py:195-196 | A new id's listing is copied from the first job with that id. |
| DbOperations.SavedAnalysesEffect | src/db_operations.py:203-210 | Analyses are written for exactly the listed ids that have a feedback, and everything else stays. |
| DbOperations.WorkflowResultEffect | src/db_operations.py:190-213 | A committed call leaves one more history record, a listing for every job, and the old listings untouched. It leaves an analysis for exactly the ids with both a summary and a feedback, built from the last of each. |
| DbOperations.SavingTwiceIsSavingOnce | src/db_operations.py:19-95 | Saving the same results twice stores the same listings and analyses as saving them once, and only the history grows. |

## Left out

- The LangGraph runtime is not part of this model. That covers compile, invoke, parallel execution of the branches, and the reducer machinery. Only the declared edges, readiness, sequential runs and the superstep reading are modelled, and a node's body is a separate method.
- The agents, the prompts and the Apify scraper are function parameters answering `None` where the call raises. `src/agents.py`, `src/prompts.py` and `src/tools/scraping_tools.py` are not part of this model.
- `resume_text_extractor` and `extract_fields_from_resume` are not modelled. The first is PDF file reading with a fixed path. The second only stores the resume agent's answer, and the stored value is the `resume` parameter of the feedback node.
- Logging, `main.py`, `src/api.py` and `src/logging_config.py` are not part of this model.
- The SQL engine and the ORM declarations (`src/models.py`, `src/Database/database.py`) are modelled only as record shapes and keyed tables. Whether the database accepts a commit is a parameter that stands for any database exception. Row timestamps and the analysis table's surrogate key are omitted, and analyses are keyed by job id.
- The read-only helpers `get_all_jobs`, `get_job_with_analysis` and `get_search_history` are not modelled. They are single `select` calls.
- The tests are manual scripts against a live server and are not modelled.
- Nodes.FeedbackAndSimilarity: keys each feedback by its summary's id (the evidently intended record) rather than modelling the `job_id=` keyword. The code as written is modelled separately; see Findings.
- State.JobSummary: one string id type is used for jobs, summaries and feedbacks. `state.py` declares the summary and feedback ids as `int` and the job id as `str`, and pydantic's coercion between them is not modelled. So `Job_Summary(..., id=job.id)` (src/nodes.py:196-200 against src/state.py:101) raises on a non-numeric job id after the id was already added to the visited set, a failure `Nodes.SummarizeJob` never produces. And `str(job_id)` in src/db_operations.py:203-210 turns an id with leading zeros such as "0042" into "42", so the stored analysis's job id no longer matches its listing's id; the model keeps the id unchanged.
- StructureOutputs.MakeJobInfo: follows the code, which validates `limit` against [1, 3] and refuses other values. It does not clamp, and `days` is not validated.
- StructureOutputs.MakeResume: follows the code. A sentinel replaces only a field left out, and an explicitly empty list stays empty.
- StructureOutputs.MakeSimilarAndFeedback: `similarity` is not bounded to 0..100, because the code declares no bound.
- StructureOutputs.Remote: the codes are the strings '1', '2', '3' the code returns, although the annotation says `List[int]`.
- Nodes.JobSearchingNode: the scraper's items are JSON objects whose values are strings, integers, string lists or null. Pydantic's coercion of non-string values into `str` fields is not modelled, and such an item is refused.

## Findings

| source | as written | input that shows it | evidently intended | confidence | as-written member | corrected member |
|---|---|---|---|---|---|---|
| src/nodes.py:256-260 | `Job_Feedback(similarity=..., feedback=..., job_id=job.id)`. The record's field is `id` (src/state.py:114), so the keyword is ignored and the required `id` is missing. | One summary with a new id, e.g. "4012", and a stored resume: constructing the record raises and the node returns no feedback. | The feedback carries the summary's id under `id`. | high (not executed) | Nodes.AsWrittenFeedbackPassFails | Nodes.FeedbacksOfFreshSummaries |
