/**
 * The rules of the crowdfunding protocol controller: how a project's status is
 * classified from its deadline, the collection of all projects, the end time the
 * project-creation stub computes and its fixed result, and the controller's store.
 * Contract reads are inputs, and the current time is a parameter.
 */
module CwProtocol {
  import opened Wrappers

  type Address = string

  const MsPerSecond: nat := 1000
  const SecondsPerDay: nat := 24 * 60 * 60

  /** `BN.toNumber()` refuses values of 2^53 or more. */
  const MaxSafeNumber: nat := 0x20_0000_0000_0000

  /** The largest time value, in milliseconds, that `new Date(ms)` accepts; beyond it the date is invalid. */
  const MaxDateMs: nat := 8_640_000_000_000_000

  datatype Status = InProgress | Successed | Failed {
    /** The text the project record carries. */
    function Label(): (s: string)
      ensures s == "In Progress" || s == "Successed" || s == "Failed"
    {
      match this
      case InProgress => "In Progress"
      case Successed => "Successed"
      case Failed => "Failed"
    }
  }

  /** Distinct statuses carry distinct labels, so filtering projects by label recovers the status. */
  lemma LabelsDistinct(a: Status, b: Status)
    ensures a.Label() == b.Label() ==> a == b
  {
  }

  datatype ProtocolError =
    | UnsafeDeadline  // the deadline in milliseconds does not fit a JavaScript number
    | NameTooLong     // the project name does not fit a bytes32 string

  /** The contract deadline, given in seconds, converted to milliseconds. */
  function DeadlineMs(deadlineSecs: nat): (r: Option<nat>)
    ensures r.Some? <==> deadlineSecs * MsPerSecond < MaxSafeNumber
    ensures r.Some? ==> r.value == deadlineSecs * MsPerSecond
  {
    var ms := deadlineSecs * MsPerSecond;
    if ms < MaxSafeNumber then Some(ms) else None
  }

  /**
   * The status rule: in progress until the end time has passed (the end instant
   * itself still counts as in progress), then successful or failed by the funded
   * flag. An end time outside the range of dates compares as NaN, so it never passes.
   */
  function ClassifyStatus(endTimeMs: nat, nowMs: int, funded: bool): (s: Status)
    ensures s == InProgress <==> endTimeMs > MaxDateMs || nowMs - endTimeMs <= 0
    ensures s == Successed <==> endTimeMs <= MaxDateMs && nowMs > endTimeMs && funded
    ensures s == Failed <==> endTimeMs <= MaxDateMs && nowMs > endTimeMs && !funded
  {
    var passed := endTimeMs <= MaxDateMs && nowMs - endTimeMs > 0;
    if !passed then InProgress
    else if funded then Successed
    else Failed
  }

  /** What the project contract reports, already decoded; the project hash is computed outside the model. */
  datatype ProjectReading = ProjectReading(
    name: string, ipfsHash: string, cwUrl: string, beneficiary: Address,
    threshold: nat, curatorFee: nat, totalFunding: nat, projectHash: string,
    deadline: nat, funded: bool)

  /**
   * A CWProject record as getProjectDetails assembles it. `endTimeMs` is the number
   * given to `new Date`; past `MaxDateMs` the source's record holds an Invalid Date
   * instead, whose `getTime()` is NaN.
   */
  datatype Project = Project(
    name: string, description: string, ipfsHash: string, cwUrl: string, beneficiary: Address,
    acceptedTokens: string, nominations: seq<Address>, threshold: nat, endTimeMs: nat,
    curatorFee: nat, projectHash: string, status: Status, totalFunding: nat,
    backers: seq<Address>, curators: seq<Address>)

  /** The project record for one contract; it fails when the deadline cannot be converted. */
  function ProjectDetails(p: ProjectReading, nowMs: int): (r: Result<Project, ProtocolError>)
    ensures r.Success? <==> p.deadline * MsPerSecond < MaxSafeNumber
    ensures r.Failure? ==> r.error == UnsafeDeadline
    ensures r.Success? ==>
      && r.value.endTimeMs == p.deadline * MsPerSecond
      && r.value.status == ClassifyStatus(p.deadline * MsPerSecond, nowMs, p.funded)
      && r.value.name == p.name && r.value.beneficiary == p.beneficiary
      && r.value.threshold == p.threshold && r.value.totalFunding == p.totalFunding
      && r.value.backers == [] && r.value.curators == []
  {
    match DeadlineMs(p.deadline)
    case None => Failure(UnsafeDeadline)
    case Some(endTime) =>
      Success(Project(
        p.name, "", p.ipfsHash, p.cwUrl, p.beneficiary, "0x00", [], p.threshold, endTime,
        p.curatorFee, p.projectHash, ClassifyStatus(endTime, nowMs, p.funded), p.totalFunding, [], []))
  }

  /** The number of bytes of the UTF-8 encoding of one character. */
  function Utf8Width(c: char): (n: nat)
    ensures 1 <= n <= 4
  {
    if c as int < 0x80 then 1
    else if c as int < 0x800 then 2
    else if c as int < 0x1_0000 then 3
    else 4
  }

  function Utf8Length(s: string): (n: nat)
    ensures |s| <= n <= 4 * |s|
    decreases |s|
  {
    if s == [] then 0 else Utf8Length(s[..|s| - 1]) + Utf8Width(s[|s| - 1])
  }

  /** `Math.ceil(nowMs / 1000)`, the current time in whole seconds, rounded up. */
  function CeilSeconds(nowMs: int): (t: int)
    ensures (t - 1) * MsPerSecond < nowMs <= t * MsPerSecond
  {
    -((-nowMs) / MsPerSecond)
  }

  /** The end time the creation stub computes: the current second, rounded up, plus the period in days. */
  function ProjectEndTime(nowMs: int, periodDays: int): (t: int)
    ensures t - periodDays * SecondsPerDay == CeilSeconds(nowMs)
    ensures (t - periodDays * SecondsPerDay - 1) * MsPerSecond < nowMs <= (t - periodDays * SecondsPerDay) * MsPerSecond
  {
    CeilSeconds(nowMs) + periodDays * SecondsPerDay
  }

  datatype CreateOutcome = CreateOutcome(status: string, projectHash: string)

  /**
   * The creation stub. The name is encoded as a bytes32 string, which refuses
   * more than 31 bytes; after that the stub always reports failure with no hash.
   */
  function CreateProject(name: string, description: string, creator: Address, beneficiary: Address,
                         threshold: int, curatorFee: int, periodDays: int, nowMs: int)
    : (r: Result<CreateOutcome, ProtocolError>)
    ensures r.Failure? <==> Utf8Length(name) > 31
    ensures r.Failure? ==> r.error == NameTooLong
    ensures r.Success? ==> r.value == CreateOutcome("failed", "")
  {
    if Utf8Length(name) > 31 then Failure(NameTooLong)
    else Success(CreateOutcome("failed", ""))
  }

  /** The protocol record the controller stores under the id 'root'. */
  datatype CWProtocol = CWProtocol(id: string, name: string, protocolFee: nat, feeTo: Address, projects: seq<Project>)

  class CommonwealthProtocol {
    var initialized: bool
    /** The CWProtocolStore, indexed by protocol id. */
    var store: map<string, CWProtocol>

    constructor ()
      ensures !initialized && store == map[]
    {
      initialized := false;
      store := map[];
    }

    /**
     * Collects one project per address, in order, but only when the contract
     * reports a non-zero project count. `read` stands for the reads of each project
     * contract; the first project whose details fail aborts the collection.
     */
    method RetrieveProjects(allProjectsLength: nat, projectAddresses: seq<Address>,
                            read: Address -> ProjectReading, nowMs: int)
      returns (r: Result<seq<Project>, ProtocolError>)
      ensures allProjectsLength == 0 ==> r == Success([])
      ensures allProjectsLength > 0 ==>
        (r.Success? <==> forall i :: 0 <= i < |projectAddresses| ==> ProjectDetails(read(projectAddresses[i]), nowMs).Success?)
      ensures allProjectsLength > 0 && r.Success? ==>
        && |r.value| == |projectAddresses|
        && forall i :: 0 <= i < |projectAddresses| ==> ProjectDetails(read(projectAddresses[i]), nowMs) == Success(r.value[i])
      ensures r.Failure? ==> r.error == UnsafeDeadline
    {
      var projects: seq<Project> := [];
      if allProjectsLength > 0 {
        var i := 0;
        while i < |projectAddresses|
          invariant 0 <= i <= |projectAddresses|
          invariant |projects| == i
          invariant forall j :: 0 <= j < i ==> ProjectDetails(read(projectAddresses[j]), nowMs) == Success(projects[j])
        {
          var proj := ProjectDetails(read(projectAddresses[i]), nowMs);
          if proj.Failure? {
            return Failure(proj.error);
          }
          projects := projects + [proj.value];
          i := i + 1;
        }
      }
      r := Success(projects);
    }

    /**
     * Reads the fee settings and all projects, then marks the controller initialised
     * and stores the 'root' protocol. When collecting the projects fails, nothing changes.
     */
    method Init(protocolFee: nat, feeTo: Address, allProjectsLength: nat, projectAddresses: seq<Address>,
                read: Address -> ProjectReading, nowMs: int)
      returns (r: Result<seq<Project>, ProtocolError>)
      modifies this
      ensures r.Failure? ==> initialized == old(initialized) && store == old(store)
      ensures r.Success? ==>
        && initialized
        && store == old(store)["root" := CWProtocol("root", "root", protocolFee, feeTo, r.value)]
      ensures allProjectsLength == 0 ==> r == Success([])
      ensures allProjectsLength > 0 && r.Success? ==>
        && |r.value| == |projectAddresses|
        && forall i :: 0 <= i < |projectAddresses| ==> ProjectDetails(read(projectAddresses[i]), nowMs) == Success(r.value[i])
    {
      r := RetrieveProjects(allProjectsLength, projectAddresses, read, nowMs);
      if r.Success? {
        initialized := true;
        store := store["root" := CWProtocol("root", "root", protocolFee, feeTo, r.value)];
      }
    }

    /** Clears the store; unlike the Cosmos registry it leaves the initialised flag as it was. */
    method Deinit()
      modifies this`store
      ensures store == map[]
    {
      store := map[];
    }
  }
}
