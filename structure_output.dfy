/**
  The older variant of the job-search parameters (src/structure_output.py):
  the `date_posted` filter, integer work-arrangement codes, and the
  one-letter contract-type codes listed in that module's documentation
  string.
 */
module StructureOutput {
  import opened Wrappers
  import Decimal
  import SO = StructureOutputs

  datatype ContractType = FullTime | PartTime | Contract | Temporary | Internship | Apprenticeship

  function ContractTypeValue(c: ContractType): string {
    match c
    case FullTime => "Full_time"
    case PartTime => "Part_time"
    case Contract => "Contract"
    case Temporary => "Temporary"
    case Internship => "Internship"
    case Apprenticeship => "Apprenticeship"
  }

  /**
    The parameters of this variant (same defaults and bounds as the newer
    one). Unlike the newer variant it spells the company field
    `company_name`, and it adds `typeOfContract`.
   */
  datatype JobInfo = JobInfo(
    title: Option<string>,
    location: Option<string>,
    days: Option<int>,
    company_name: Option<seq<string>>,
    companyId: Option<seq<string>>,
    skipJobId: Option<seq<string>>,
    jobType: Option<seq<SO.JobType>>,
    experienceLevel: Option<seq<string>>,
    typeOfContract: Option<seq<ContractType>>,
    limit: Option<int>)

  datatype JobInfoInput = JobInfoInput(
    title: SO.Input<string>,
    location: SO.Input<string>,
    days: SO.Input<int>,
    company_name: SO.Input<seq<string>>,
    companyId: SO.Input<seq<string>>,
    skipJobId: SO.Input<seq<string>>,
    jobType: SO.Input<seq<SO.JobType>>,
    experienceLevel: SO.Input<seq<string>>,
    typeOfContract: SO.Input<seq<ContractType>>,
    limit: SO.Input<int>)

  predicate ValidJobInfo(j: JobInfo) {
    j.limit.None? || SO.MinLimit <= j.limit.value <= SO.MaxLimit
  }

  /** Builds the record: `days` defaults to 7, `limit` to 3, and a given limit outside [1, 3] is refused. */
  function MakeJobInfo(i: JobInfoInput): (r: Result<JobInfo, SO.ValidationError>)
    ensures r.Ok? <==> !(i.limit.Given? && !(SO.MinLimit <= i.limit.value <= SO.MaxLimit))
    ensures r.Ok? ==> ValidJobInfo(r.value)
    ensures r.Ok? && i.days.Absent? ==> r.value.days == Some(7)
    ensures r.Ok? && i.limit.Absent? ==> r.value.limit == Some(3)
    ensures r.Ok? && i.limit.Given? ==> r.value.limit == Some(i.limit.value)
  {
    if i.limit.Given? && !(SO.MinLimit <= i.limit.value <= SO.MaxLimit) then
      Err(SO.OutOfRange("limit", i.limit.value))
    else
      Ok(JobInfo(
        SO.Optional(i.title, None),
        SO.Optional(i.location, None),
        SO.Optional(i.days, Some(SO.DefaultDays)),
        SO.Optional(i.company_name, None),
        SO.Optional(i.companyId, None),
        SO.Optional(i.skipJobId, None),
        SO.Optional(i.jobType, None),
        SO.Optional(i.experienceLevel, None),
        SO.Optional(i.typeOfContract, None),
        SO.Optional(i.limit, Some(SO.DefaultLimit))))
  }

  /** `date_posted`: "r" and the decimal number of seconds in `days` days. */
  function DatePosted(j: JobInfo): (r: Result<string, SO.TypeError>)
    ensures r.Err? <==> j.days.None?
    ensures r.Ok? ==> |r.value| >= 2 && r.value[0] == 'r'
  {
    match j.days
    case None => Err(SO.NoneTimesInt)
    case Some(d) => Ok("r" + Decimal.IntToString(d * SO.SecondsPerDay))
  }

  /** Both variants render the same filter for the same number of days. */
  lemma DatePostedAgreesWithNewer(j: JobInfo, k: SO.JobInfo)
    requires j.days == k.days
    ensures DatePosted(j) == SO.DatePosted(k)
    ensures j.days.Some? ==> Decimal.ParseInt(DatePosted(j).value[1..]) == Some(j.days.value * SO.SecondsPerDay)
  {
    if j.days.Some? {
      SO.DatePostedRoundTrip(k);
    }
  }

  // job_type_codes: integer codes

  function JobTypeCode(t: SO.JobType): int {
    match t
    case ONSITE => 1
    case REMOTE => 2
    case HYBRID => 3
  }

  function DecodeJobTypeCode(c: int): (r: Option<SO.JobType>)
    ensures r.Some? ==> JobTypeCode(r.value) == c
  {
    if c == 1 then Some(SO.ONSITE)
    else if c == 2 then Some(SO.REMOTE)
    else if c == 3 then Some(SO.HYBRID)
    else None
  }

  function JobTypeCodeList(ts: seq<SO.JobType>): (r: seq<int>)
    ensures |r| == |ts|
    ensures forall k :: 0 <= k < |ts| ==> r[k] == JobTypeCode(ts[k])
  {
    if ts == [] then [] else JobTypeCodeList(ts[..|ts| - 1]) + [JobTypeCode(ts[|ts| - 1])]
  }

  function DecodeJobTypeCodeList(cs: seq<int>): Option<seq<SO.JobType>>
  {
    if cs == [] then Some([])
    else
      var ts := DecodeJobTypeCodeList(cs[..|cs| - 1]);
      var t := DecodeJobTypeCode(cs[|cs| - 1]);
      if ts.Some? && t.Some? then Some(ts.value + [t.value]) else None
  }

  /** `job_type_codes`: None for a missing or empty `jobType`, otherwise 1/2/3 per entry in order. */
  function JobTypeCodes(j: JobInfo): (r: Option<seq<int>>)
    ensures r.None? <==> (j.jobType.None? || j.jobType.value == [])
    ensures r.Some? ==> r.value == JobTypeCodeList(j.jobType.value)
  {
    if j.jobType.None? || j.jobType.value == [] then None else Some(JobTypeCodeList(j.jobType.value))
  }

  /** The integer codes are the newer variant's string codes read as numbers. */
  lemma JobTypeCodeMatchesRemoteCode(t: SO.JobType)
    ensures Decimal.IntToString(JobTypeCode(t)) == SO.RemoteCode(t)
  {
  }

  lemma {:induction false} JobTypeCodesRoundTrip(ts: seq<SO.JobType>)
    ensures DecodeJobTypeCodeList(JobTypeCodeList(ts)) == Some(ts)
  {
    if ts != [] {
      var init := ts[..|ts| - 1];
      var last := ts[|ts| - 1];
      JobTypeCodesRoundTrip(init);
      var cs := JobTypeCodeList(ts);
      assert cs == JobTypeCodeList(init) + [JobTypeCode(last)];
      assert cs[..|cs| - 1] == JobTypeCodeList(init);
      DecodeOfJobTypeCode(last);
      assert init + [last] == ts;
    }
  }

  lemma DecodeOfJobTypeCode(x: SO.JobType)
    ensures DecodeJobTypeCode(JobTypeCode(x)) == Some(x)
  {
  }

  // contract_codes: one-letter codes

  function ContractCode(c: ContractType): string {
    match c
    case FullTime => "F"
    case PartTime => "P"
    case Contract => "C"
    case Temporary => "T"
    case Internship => "I"
    case Apprenticeship => "A"
  }

  function DecodeContractCode(s: string): (r: Option<ContractType>)
    ensures r.Some? ==> ContractCode(r.value) == s
  {
    if s == "F" then Some(FullTime)
    else if s == "P" then Some(PartTime)
    else if s == "C" then Some(Contract)
    else if s == "T" then Some(Temporary)
    else if s == "I" then Some(Internship)
    else if s == "A" then Some(Apprenticeship)
    else None
  }

  function ContractCodeList(cs: seq<ContractType>): (r: seq<string>)
    ensures |r| == |cs|
    ensures forall k :: 0 <= k < |cs| ==> r[k] == ContractCode(cs[k])
  {
    if cs == [] then [] else ContractCodeList(cs[..|cs| - 1]) + [ContractCode(cs[|cs| - 1])]
  }

  function DecodeContractCodeList(ss: seq<string>): Option<seq<ContractType>>
  {
    if ss == [] then Some([])
    else
      var cs := DecodeContractCodeList(ss[..|ss| - 1]);
      var c := DecodeContractCode(ss[|ss| - 1]);
      if cs.Some? && c.Some? then Some(cs.value + [c.value]) else None
  }

  /** `contract_codes`: None for a missing or empty `typeOfContract`, otherwise F/P/C/T/I/A per entry in order. */
  function ContractCodes(j: JobInfo): (r: Option<seq<string>>)
    ensures r.None? <==> (j.typeOfContract.None? || j.typeOfContract.value == [])
    ensures r.Some? ==> r.value == ContractCodeList(j.typeOfContract.value)
  {
    if j.typeOfContract.None? || j.typeOfContract.value == [] then None
    else Some(ContractCodeList(j.typeOfContract.value))
  }

  lemma ContractCodeInjective(a: ContractType, b: ContractType)
    requires ContractCode(a) == ContractCode(b)
    ensures a == b
  {
  }

  lemma {:induction false} ContractCodesRoundTrip(kinds: seq<ContractType>)
    ensures DecodeContractCodeList(ContractCodeList(kinds)) == Some(kinds)
  {
    if kinds != [] {
      var init := kinds[..|kinds| - 1];
      var last := kinds[|kinds| - 1];
      ContractCodesRoundTrip(init);
      var cs := ContractCodeList(kinds);
      assert cs == ContractCodeList(init) + [ContractCode(last)];
      assert cs[..|cs| - 1] == ContractCodeList(init);
      DecodeOfContractCode(last);
      assert init + [last] == kinds;
    }
  }

  lemma DecodeOfContractCode(x: ContractType)
    ensures DecodeContractCode(ContractCode(x)) == Some(x)
  {
  }

  /** The code table in the module's documentation string: code and contract name. */
  const DocumentedCodes: seq<(string, string)> := [
    ("F", "Full-time"), ("P", "Part-time"), ("C", "Contract"),
    ("T", "Temporary"), ("I", "Internship"), ("A", "Apprenticeship")]

  /** The contract types in declaration order. */
  const AllContractTypes: seq<ContractType> :=
    [FullTime, PartTime, Contract, Temporary, Internship, Apprenticeship]

  /** The documented name, with '-' written as '_'. */
  function Underscored(s: string): (r: string)
    ensures |r| == |s|
    ensures forall k :: 0 <= k < |s| ==> r[k] == (if s[k] == '-' then '_' else s[k])
  {
    if s == [] then [] else Underscored(s[..|s| - 1]) + [if s[|s| - 1] == '-' then '_' else s[|s| - 1]]
  }

  /**
    Row k of the documented table gives the code of the k-th contract
    type, and its name is the enum value with '_' written as '-'.
   */
  lemma ContractCodesMatchDocumentation(k: nat)
    requires k < |AllContractTypes|
    ensures |DocumentedCodes| == |AllContractTypes|
    ensures ContractCode(AllContractTypes[k]) == DocumentedCodes[k].0
    ensures Underscored(DocumentedCodes[k].1) == ContractTypeValue(AllContractTypes[k])
  {
    var name := DocumentedCodes[k].1;
    var u := Underscored(name);
    assert u == ContractTypeValue(AllContractTypes[k]) by {
      var v := ContractTypeValue(AllContractTypes[k]);
      assert |u| == |v| && forall i :: 0 <= i < |u| ==> u[i] == v[i] by {
        if k == 0 { assert name == "Full-time"; }
        else if k == 1 { assert name == "Part-time"; }
      }
    }
  }
}
