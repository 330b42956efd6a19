/** The parts of the build host (Jenkins) that the notifier reads, as plain values.
    A project's build history is ordered oldest first, so the last build is the
    last element and a build's previous build is the element before it. */
module Jenkins {

  datatype Option<T> = None | Some(value: T)

  /** hudson.model.Result; Unknown stands for a null result. */
  datatype BuildResult = Success | Unstable | Failure | NotBuilt | Aborted | Unknown

  /** The causes a CauseAction can hold. An upstream cause carries the causes of
      the upstream build in list order. */
  datatype Cause =
    | UserIdCause(userId: Option<string>)
    | UpstreamCause(upstreamProject: string, upstreamBuild: int, upstreamCauses: seq<Cause>)
    | ScmTriggerCause
    | OtherCause(description: string)

  datatype ChangeEntry = ChangeEntry(author: string, msg: string, affectedFiles: seq<string>)

  datatype ChangeSet = ChangeSet(computed: bool, items: seq<ChangeEntry>)

  datatype TestCounts = TestCounts(total: int, failed: int, skipped: int)

  /** A build snapshot. `environment` is None when reading it throws;
      `causeDescription` is CauseAction.getShortDescription(); `expandedCustomMessage`
      is the project's custom-message template after expansion against this
      build's environment, both computed by the host. */
  datatype Build = Build(
    number: int,
    building: bool,
    result: BuildResult,
    displayName: string,
    url: string,
    durationString: string,
    environment: Option<map<string, string>>,
    causeAction: Option<seq<Cause>>,
    causeDescription: string,
    changeSet: ChangeSet,
    testResult: Option<TestCounts>,
    expandedCustomMessage: string)

  /** SlackNotifier.SlackJobProperty: the per-project flags. */
  datatype JobProperty = JobProperty(
    notifyAborted: bool,
    notifyFailure: bool,
    notifyRepeatedFailure: bool,
    notifyNotBuilt: bool,
    notifyBackToNormal: bool,
    notifySuccess: bool,
    notifyUnstable: bool,
    includeTestSummary: bool,
    includeCustomMessage: bool,
    showCommitList: bool,
    customMessage: string)

  datatype Project = Project(
    name: string,
    fullName: string,
    fullDisplayName: string,
    history: seq<Build>,
    property: Option<JobProperty>)

  /** The notifier's build-server URL and the host's project registry. */
  datatype Site = Site(buildServerUrl: string, projects: seq<Project>)

  /** Run.getPreviousCompletedBuild of the build at index i: the nearest earlier
      build that is not building, or -1. */
  function PreviousCompletedIndex(h: seq<Build>, i: int): (r: int)
    requires 0 <= i <= |h|
    ensures -1 <= r < i
    ensures r >= 0 ==> !h[r].building
    ensures forall k :: r < k < i ==> h[k].building
    decreases i
  {
    if i == 0 then -1
    else if !h[i - 1].building then i - 1
    else PreviousCompletedIndex(h, i - 1)
  }

  /** Run.isBetterOrEqualTo(UNSTABLE) on a finished build: what
      Job.getLastSuccessfulBuild looks for. */
  predicate IsSuccessful(b: Build)
  {
    !b.building && (b.result == Success || b.result == Unstable)
  }

  /** Job.getLastSuccessfulBuild over the first n builds, as an index, or -1. */
  function LastSuccessfulIndex(h: seq<Build>, n: int): (r: int)
    requires 0 <= n <= |h|
    ensures -1 <= r < n
    ensures r >= 0 ==> IsSuccessful(h[r])
    ensures forall k :: r < k < n ==> !IsSuccessful(h[k])
    decreases n
  {
    if n == 0 then -1
    else if IsSuccessful(h[n - 1]) then n - 1
    else LastSuccessfulIndex(h, n - 1)
  }

  /** AbstractProject.getBuildByNumber. */
  function BuildByNumber(h: seq<Build>, number: int): (r: Option<Build>)
    ensures r.Some? ==> r.value in h && r.value.number == number
    ensures r.None? ==> forall k :: 0 <= k < |h| ==> h[k].number != number
  {
    if h == [] then None
    else if h[0].number == number then Some(h[0])
    else BuildByNumber(h[1..], number)
  }

  /** Jenkins.getItemByFullName. */
  function ItemByFullName(projects: seq<Project>, fullName: string): (r: Option<Project>)
    ensures r.Some? ==> r.value in projects && r.value.fullName == fullName
    ensures r.None? ==> forall k :: 0 <= k < |projects| ==> projects[k].fullName != fullName
  {
    if projects == [] then None
    else if projects[0].fullName == fullName then Some(projects[0])
    else ItemByFullName(projects[1..], fullName)
  }

  /** Index of the first user cause in cs (CauseAction.findCause(UserIdCause.class)), or |cs|. */
  function FirstUserIndex(cs: seq<Cause>): (i: nat)
    ensures i <= |cs|
    ensures i < |cs| ==> cs[i].UserIdCause?
    ensures forall k :: 0 <= k < i ==> !cs[k].UserIdCause?
  {
    if cs == [] then 0
    else if cs[0].UserIdCause? then 0
    else 1 + FirstUserIndex(cs[1..])
  }

  /** Index of the first upstream cause in cs (CauseAction.findCause(UpstreamCause.class)), or |cs|. */
  function FirstUpstreamIndex(cs: seq<Cause>): (i: nat)
    ensures i <= |cs|
    ensures i < |cs| ==> cs[i].UpstreamCause?
    ensures forall k :: 0 <= k < i ==> !cs[k].UpstreamCause?
  {
    if cs == [] then 0
    else if cs[0].UpstreamCause? then 0
    else 1 + FirstUpstreamIndex(cs[1..])
  }

  /** Index of the last upstream cause in cs, or -1. */
  function LastUpstreamIndex(cs: seq<Cause>): (j: int)
    ensures -1 <= j < |cs|
    ensures j >= 0 ==> cs[j].UpstreamCause?
    ensures forall k :: j < k < |cs| ==> !cs[k].UpstreamCause?
  {
    if cs == [] then -1
    else if cs[|cs| - 1].UpstreamCause? then |cs| - 1
    else LastUpstreamIndex(cs[..|cs| - 1])
  }

  /** Run.getCause(UpstreamCause.class): the first upstream cause of the build's CauseAction. */
  function UpstreamCauseOf(b: Build): (c: Option<Cause>)
    ensures c.Some? ==> c.value.UpstreamCause?
    ensures c.None? <==> (b.causeAction.None? ||
      forall k :: 0 <= k < |b.causeAction.value| ==> !b.causeAction.value[k].UpstreamCause?)
    ensures c.Some? ==> c.value == b.causeAction.value[FirstUpstreamIndex(b.causeAction.value)]
  {
    match b.causeAction
    case None => None
    case Some(cs) =>
      var i := FirstUpstreamIndex(cs);
      if i < |cs| then Some(cs[i]) else None
  }

  /** CauseAction.findCause(SCMTrigger.SCMTriggerCause.class) != null. */
  predicate HasScmTriggerCause(cs: seq<Cause>)
  {
    exists k :: 0 <= k < |cs| && cs[k].ScmTriggerCause?
  }
}
