/** ActiveNotifier.MessageBuilder: the append-only text buffer every notification
    is composed in, the header each buffer starts with, and the lookups the
    builder makes (status label, branch, first failed build, broken QA3 jobs). */
module Messages {
  import opened Jenkins
  import opened Text
  import opened Escaping
  import opened Causes

  const StableNotice := ": You have broken a STABLE build. Please fix it and don't let your teammates waiting! :strobe: \n"
  const CulpritNotice := ": You are a reason why your teammate build has failed. Please fix it and apologies!\n"
  const Reminder := ": Just a kind reminder that your build has failed. Don't shoot the messenger. :innocent: \n"
  const QaWarning := ": Watch out everybody!!! "
  const QaBlame := " is trying to release when there are QA3 tests failing!!! Whoever punch him/her first will get a star. :punch: \n"
  const QaHeading := "Broken QA3 Tests:\n"

  /** The nine outcomes of getStatusMessage. */
  datatype Status =
    | Starting | BackToNormal | StillFailing | SuccessStatus | FailureStatus
    | AbortedStatus | NotBuiltStatus | UnstableStatus | UnknownStatus

  /** The text getStatusMessage returns for each outcome. */
  function StatusText(s: Status): string
  {
    match s
    case Starting => "Starting..."
    case BackToNormal => "Back to normal"
    case StillFailing => "Still Failing"
    case SuccessStatus => "Success"
    case FailureStatus => "Failure"
    case AbortedStatus => "Aborted"
    case NotBuiltStatus => "Not built"
    case UnstableStatus => "Unstable"
    case UnknownStatus => "Unknown"
  }

  /** appendSendTo: a mention; a null id is written as the text "null". */
  function SendTo(userId: Option<string>): string
  {
    "<@" + (if userId.Some? then userId.value else "null") + ">"
  }

  /** appendSendToEverybody. */
  function SendToEverybody(): string
  {
    "<!channel>"
  }

  /** The outcome getStatusMessage gives a finished build, from its result and the
      result of the build before the project's last build: exactly one of eight. */
  function StatusLabel(result: BuildResult, previous: BuildResult): (s: Status)
    ensures s != Starting
    ensures s == BackToNormal <==> result == Success && previous == Failure
    ensures s == StillFailing <==> result == Failure && previous == Failure
    ensures s == SuccessStatus <==> result == Success && previous != Failure
    ensures s == FailureStatus <==> result == Failure && previous != Failure
    ensures s == AbortedStatus <==> result == Aborted
    ensures s == NotBuiltStatus <==> result == NotBuilt
    ensures s == UnstableStatus <==> result == Unstable
    ensures s == UnknownStatus <==> result.Unknown?
  {
    if result == Success && previous == Failure then BackToNormal
    else if result == Failure && previous == Failure then StillFailing
    else if result == Success then SuccessStatus
    else if result == Failure then FailureStatus
    else if result == Aborted then AbortedStatus
    else if result == NotBuilt then NotBuiltStatus
    else if result == Unstable then UnstableStatus
    else UnknownStatus
  }

  /** The result getStatusMessage compares with: that of getPreviousBuild() of the
      project's last build, aborted or not, and SUCCESS when there is none. */
  function PreviousBuildResult(h: seq<Build>): BuildResult
    requires |h| > 0
  {
    if |h| >= 2 then h[|h| - 2].result else Success
  }

  /** getStatusMessage: "Starting..." exactly while the build is running. */
  function StatusMessage(p: Project, b: Build): (s: Status)
    requires b.building || |p.history| > 0
    ensures s == Starting <==> b.building
  {
    if b.building then Starting else StatusLabel(b.result, PreviousBuildResult(p.history))
  }

  /** With no build before the last one, the previous result counts as SUCCESS. */
  lemma PreviousAbsentCountsAsSuccess(p: Project, b: Build)
    requires !b.building && |p.history| == 1
    ensures StatusMessage(p, b) == StatusLabel(b.result, Success)
    ensures StatusMessage(p, b) != BackToNormal && StatusMessage(p, b) != StillFailing
  {
  }

  /** Recovery from UNSTABLE is reported as "Success", never "Back to normal". */
  lemma UnstablePreviousIsNotBackToNormal(p: Project, b: Build)
    requires |p.history| >= 2 && p.history[|p.history| - 2].result == Unstable
    ensures StatusMessage(p, b) != BackToNormal
  {
  }

  /** An aborted previous build is not skipped: a success after it is "Success"
      whatever failed before it. */
  lemma AbortedPreviousIsNotSkipped(p: Project, b: Build)
    requires !b.building && b.result == Success
    requires |p.history| >= 2 && p.history[|p.history| - 2].result == Aborted
    ensures StatusMessage(p, b) == SuccessStatus
  {
  }

  /** getBuildBranch: BUILD_BRANCH, falling back to BRANCH; None when neither is
      set or the environment cannot be read. */
  function BuildBranch(b: Build): (r: Option<string>)
    ensures r.Some? ==> (b.environment.Some? &&
      (("BUILD_BRANCH" in b.environment.value && r.value == b.environment.value["BUILD_BRANCH"]) ||
       ("BUILD_BRANCH" !in b.environment.value && "BRANCH" in b.environment.value &&
        r.value == b.environment.value["BRANCH"])))
    ensures r.None? <==> (b.environment.None? ||
      ("BUILD_BRANCH" !in b.environment.value && "BRANCH" !in b.environment.value))
  {
    match b.environment
    case None => None
    case Some(env) =>
      if "BUILD_BRANCH" in env then Some(env["BUILD_BRANCH"])
      else if "BRANCH" in env then Some(env["BRANCH"])
      else None
  }

  /** "stable".equalsIgnoreCase(getBuildBranch()). */
  predicate IsStableBranch(b: Build)
  {
    BuildBranch(b).Some? && EqualsIgnoreCase("stable", BuildBranch(b).value)
  }

  /** appendBranch: the branch is written as it is, not escaped. */
  function BranchText(b: Build): string
  {
    match BuildBranch(b)
    case None => ""
    case Some(branch) => "(branch: " + branch + ")"
  }

  /** findFirstFailedBuild as an index: the build after the last successful one,
      or -1 when there is no successful build or nothing follows it. */
  function FirstFailedIndex(h: seq<Build>): (k: int)
    ensures k == -1 || (1 <= k < |h| && IsSuccessful(h[k - 1]) &&
                        forall m :: k <= m < |h| ==> !IsSuccessful(h[m]))
    ensures k == -1 <==> ((forall m :: 0 <= m < |h| ==> !IsSuccessful(h[m])) ||
                          (|h| > 0 && IsSuccessful(h[|h| - 1])))
  {
    var s := LastSuccessfulIndex(h, |h|);
    if s >= 0 && s + 1 < |h| then s + 1 else -1
  }

  function FirstFailedBuild(p: Project): Option<Build>
  {
    var k := FirstFailedIndex(p.history);
    if k >= 0 then Some(p.history[k]) else None
  }

  /** getUserId(findFirstFailedBuild()), reading an absent build as "no user". */
  function FirstFailedUser(p: Project): Option<string>
  {
    match FirstFailedBuild(p)
    case None => None
    case Some(f) => UserIdOf(f)
  }

  /** The second mention: made only when the first failed build's user is known
      and is not the current user. */
  function CulpritMention(userId: string, first: Option<string>): string
  {
    if first.Some? && first.value != userId then SendTo(first) + CulpritNotice else ""
  }

  /** appendBrokenBuildNotificationAddressedToUserWhoTriggeredBuild, as intended:
      without a first failed build there is no second mention. */
  function BrokenBuildNotification(p: Project, b: Build): string
  {
    var userId := UserIdOf(b);
    if b.result == Failure && userId.Some? then SendTo(userId) + BranchNotice(p, b, userId.value)
    else ""
  }

  /** What follows the mention of the user who broke the build: on the stable
      branch the stable notice and the culprit mention, elsewhere the reminder. */
  function BranchNotice(p: Project, b: Build, userId: string): string
  {
    if IsStableBranch(b) then StableNotice + CulpritMention(userId, FirstFailedUser(p)) else Reminder
  }

  /** The same appender as written: it passes findFirstFailedBuild() straight to
      getUserId, which dereferences it, so a stable-branch failure in a project
      with no build after its last successful one throws (None here). */
  function BrokenBuildNotificationAsWritten(p: Project, b: Build): Option<string>
  {
    var userId := UserIdOf(b);
    if b.result == Failure && userId.Some? then
      if IsStableBranch(b) then
        match FirstFailedBuild(p)
        case None => None
        case Some(f) => Some(SendTo(userId) + StableNotice + CulpritMention(userId.value, UserIdOf(f)))
      else Some(SendTo(userId) + Reminder)
    else Some("")
  }

  /** The code as written throws exactly on stable-branch failures with a user and
      no first failed build; otherwise it agrees with the intended appender. */
  lemma AsWrittenAgreesWhenItReturns(p: Project, b: Build)
    ensures BrokenBuildNotificationAsWritten(p, b).None? <==>
      b.result == Failure && UserIdOf(b).Some? && IsStableBranch(b) && FirstFailedBuild(p).None?
    ensures BrokenBuildNotificationAsWritten(p, b).Some? ==>
      BrokenBuildNotificationAsWritten(p, b).value == BrokenBuildNotification(p, b)
  {
  }

  /** A project whose only build fails on branch "stable", started by user
      "alice": the code as written dereferences null, the intended appender
      mentions alice once. */
  lemma FirstFailedBuildNullDereference()
    ensures var b := Build(1, false, Failure, "#1", "job/p/1/", "1 sec",
                           Some(map["BUILD_BRANCH" := "stable"]), Some([UserIdCause(Some("alice"))]),
                           "Started by user alice", ChangeSet(true, []), None, "");
      var p := Project("p", "p", "p", [b], None);
      BrokenBuildNotificationAsWritten(p, b).None? &&
      BrokenBuildNotification(p, b) == SendTo(Some("alice")) + StableNotice
  {
    var b := Build(1, false, Failure, "#1", "job/p/1/", "1 sec",
                   Some(map["BUILD_BRANCH" := "stable"]), Some([UserIdCause(Some("alice"))]),
                   "Started by user alice", ChangeSet(true, []), None, "");
    var p := Project("p", "p", "p", [b], None);
    assert UserIdOf(b) == Some("alice");
    assert BuildBranch(b) == Some("stable");
    assert IsStableBranch(b);
    assert FirstFailedIndex(p.history) == -1;
  }

  /** The mention of the current user is made only for a FAILURE whose user id
      resolves, and then the notification starts with it. */
  lemma MentionOnlyOnFailureWithUser(p: Project, b: Build)
    ensures BrokenBuildNotification(p, b) != "" <==> b.result == Failure && UserIdOf(b).Some?
    ensures BrokenBuildNotification(p, b) != "" ==> SendTo(UserIdOf(b)) <= BrokenBuildNotification(p, b)
  {
  }

  /** After the mention comes the STABLE text exactly when the branch is "stable",
      ignoring case; otherwise the milder reminder. */
  lemma StableTextOnlyOnStableBranch(p: Project, b: Build)
    requires b.result == Failure && UserIdOf(b).Some?
    ensures var n := BrokenBuildNotification(p, b);
      var lead := SendTo(UserIdOf(b));
      (lead + StableNotice <= n <==> IsStableBranch(b)) &&
      (!IsStableBranch(b) ==> n == lead + Reminder)
  {
    var n := BrokenBuildNotification(p, b);
    var lead := SendTo(UserIdOf(b));
    if !IsStableBranch(b) {
      assert n == lead + Reminder;
      assert |StableNotice| > |Reminder|;
    }
  }

  /** On a stable-branch failure a second mention follows exactly when the first
      failed build's user is known and differs from the current user. */
  lemma SecondMentionOnlyForOtherCulprit(p: Project, b: Build)
    requires b.result == Failure && UserIdOf(b).Some? && IsStableBranch(b)
    ensures var n := BrokenBuildNotification(p, b);
      var lead := SendTo(UserIdOf(b)) + StableNotice;
      lead <= n &&
      (|n| > |lead| <==> FirstFailedUser(p).Some? && FirstFailedUser(p).value != UserIdOf(b).value)
  {
  }

  /** startMessage: notification, escaped project name, branch, " - ", escaped
      build name, a space. */
  function Header(p: Project, b: Build): string
  {
    BrokenBuildNotification(p, b) + Escape(p.fullDisplayName) + BranchText(b) +
    " - " + Escape(b.displayName) + " "
  }

  /** Without a mention and a branch, all the header's text is escaped: it holds no
      `<` and no `>`. */
  lemma HeaderIsEscaped(p: Project, b: Build)
    requires BrokenBuildNotification(p, b) == "" && BuildBranch(b).None?
    ensures '<' !in Header(p, b) && '>' !in Header(p, b)
  {
    EscapeNeutralizes(p.fullDisplayName);
    EscapeNeutralizes(b.displayName);
    assert Header(p, b) == Escape(p.fullDisplayName) + " - " + Escape(b.displayName) + " ";
  }

  /** The filter in getBrokenQa3TestBuilds: a QA3 test job that is not
      experimental and whose last build failed. */
  predicate IsBrokenQa3(p: Project)
  {
    Contains(ToLower(p.name), "qa3_tests") && !Contains(ToLower(p.name), "experimental") &&
    |p.history| > 0 && p.history[|p.history| - 1].result == Failure
  }

  /** getBrokenQa3TestBuilds over the given project list. */
  function BrokenQa3TestBuilds(projects: seq<Project>): seq<string>
    decreases |projects|
  {
    if projects == [] then []
    else
      var last := projects[|projects| - 1];
      BrokenQa3TestBuilds(projects[..|projects| - 1]) + (if IsBrokenQa3(last) then [last.name] else [])
  }

  method GetBrokenQa3TestBuilds(projects: seq<Project>) returns (broken: seq<string>)
    ensures broken == BrokenQa3TestBuilds(projects)
  {
    broken := [];
    for k := 0 to |projects|
      invariant broken == BrokenQa3TestBuilds(projects[..k])
    {
      assert projects[..k + 1][..k] == projects[..k];
      var p := projects[k];
      if Contains(ToLower(p.name), "qa3_tests") && !Contains(ToLower(p.name), "experimental") {
        if |p.history| > 0 && p.history[|p.history| - 1].result == Failure {
          broken := broken + [p.name];
        }
      }
    }
    assert projects[..|projects|] == projects;
  }

  /** A name is reported exactly when some listed project by that name is broken. */
  lemma {:induction false} BrokenQa3Membership(projects: seq<Project>, name: string)
    ensures name in BrokenQa3TestBuilds(projects) <==>
      exists k :: 0 <= k < |projects| && IsBrokenQa3(projects[k]) && projects[k].name == name
    decreases |projects|
  {
    if projects != [] {
      var init := projects[..|projects| - 1];
      BrokenQa3Membership(init, name);
      assert forall k :: 0 <= k < |init| ==> init[k] == projects[k];
    }
  }

  /** The filter keeps the registry's order: filtering a concatenation
      concatenates the filtered parts. */
  lemma {:induction false} BrokenQa3PreservesOrder(a: seq<Project>, b: seq<Project>)
    ensures BrokenQa3TestBuilds(a + b) == BrokenQa3TestBuilds(a) + BrokenQa3TestBuilds(b)
    decreases |b|
  {
    if b == [] {
      assert a + b == a;
    } else {
      var init := b[..|b| - 1];
      BrokenQa3PreservesOrder(a, init);
      assert (a + b)[..|a + b| - 1] == a + init;
    }
  }

  /** One line per broken job. */
  function Lines(names: seq<string>): string
    decreases |names|
  {
    if names == [] then "" else Lines(names[..|names| - 1]) + names[|names| - 1] + "\n"
  }

  /** appendAlertIfAnyOfQa3TestsBuildIsFailing. */
  function Qa3Alert(site: Site, p: Project, b: Build): string
  {
    var broken := BrokenQa3TestBuilds(site.projects);
    if Contains(ToLower(p.name), "copy") && broken != [] then
      SendToEverybody() + QaWarning + SendTo(UserIdOf(b)) + QaBlame + QaHeading + Lines(broken)
    else ""
  }

  /** The alert is raised only for a project whose name contains "copy" (any
      case), and then only while some QA3 job is broken. */
  lemma Qa3AlertOnlyForCopyProjects(site: Site, p: Project, b: Build)
    ensures Qa3Alert(site, p, b) != "" <==>
      Contains(ToLower(p.name), "copy") && BrokenQa3TestBuilds(site.projects) != []
    ensures Qa3Alert(site, p, b) != "" ==> SendToEverybody() <= Qa3Alert(site, p, b)
  {
  }

  /** appendOpenLink. */
  function OpenLink(site: Site, b: Build): string
  {
    " (<" + site.buildServerUrl + b.url + "|Open>)"
  }

  /** appendDuration. */
  function Duration(b: Build): string
  {
    " after " + b.durationString
  }

  /** appendTestSummary: passed = total - failed - skipped. */
  function TestSummary(b: Build): string
  {
    match b.testResult
    case None => "\nNo Tests found."
    case Some(t) =>
      "\nTest Status:\n" + "\tPassed: " + IntToString(t.total - t.failed - t.skipped) +
      ", Failed: " + IntToString(t.failed) + ", Skipped: " + IntToString(t.skipped)
  }

  /** appendCustomMessage: an empty template becomes null, whose expansion is null,
      which the buffer writes as "null". */
  function CustomMessage(p: Project, b: Build): string
    requires p.property.Some?
  {
    "\n" + (if p.property.value.customMessage == "" then "null" else b.expandedCustomMessage)
  }

  class MessageBuilder {
    const site: Site
    const project: Project
    const build: Build
    var message: string

    /** MessageBuilder(notifier, build): the buffer starts with the header. */
    constructor (site: Site, project: Project, build: Build)
      ensures this.site == site && this.project == project && this.build == build
      ensures message == Header(project, build)
    {
      this.site := site;
      this.project := project;
      this.build := build;
      message := "";
      new;
      StartMessage();
      EmptyPrefix(Header(project, build));
    }

    /** MessageBuilder(notifier, build, verifyQa3Tests): the QA3 alert, if asked
        for, comes before the header. */
    constructor WithQa3Check(site: Site, project: Project, build: Build, verifyQa3Tests: bool)
      ensures this.site == site && this.project == project && this.build == build
      ensures message == (if verifyQa3Tests then Qa3Alert(site, project, build) else "") + Header(project, build)
    {
      this.site := site;
      this.project := project;
      this.build := build;
      message := "";
      new;
      ghost var alert := if verifyQa3Tests then Qa3Alert(site, project, build) else "";
      if verifyQa3Tests {
        AppendAlertIfAnyOfQa3TestsBuildIsFailing();
      }
      EmptyPrefix(alert);
      StartMessage();
    }

    method AppendAlertIfAnyOfQa3TestsBuildIsFailing()
      modifies this
      ensures message == old(message) + Qa3Alert(site, project, build)
    {
      ghost var m0 := message;
      var userId := GetUserId(build);
      if Contains(ToLower(project.name), "copy") {
        var broken := GetBrokenQa3TestBuilds(site.projects);
        if broken != [] {
          AppendSendToEverybody();
          message := message + QaWarning;
          AppendSendTo(userId);
          message := message + QaBlame;
          message := message + QaHeading;
          AppendLines(broken);
          Associative6(m0, SendToEverybody(), QaWarning, SendTo(userId), QaBlame, QaHeading, Lines(broken));
        } else {
          EmptySuffix(m0);
        }
      } else {
        EmptySuffix(m0);
      }
    }

    /** The loop of appendAlertIfAnyOfQa3TestsBuildIsFailing: one line per name. */
    method AppendLines(names: seq<string>)
      modifies this
      ensures message == old(message) + Lines(names)
    {
      ghost var before := message;
      assert message == before + Lines(names[..0]);
      for k := 0 to |names|
        invariant message == before + Lines(names[..k])
      {
        assert names[..k + 1][..k] == names[..k];
        AppendLine(before, Lines(names[..k]), names[k], "\n");
        message := message + (names[k] + "\n");
      }
      assert names[..|names|] == names;
    }

    method AppendStatusMessage()
      requires build.building || |project.history| > 0
      modifies this
      ensures message == old(message) + Escape(StatusText(StatusMessage(project, build)))
    {
      message := message + Escape(StatusText(StatusMessage(project, build)));
    }

    /** append(String) and append(Object): the text is escaped. */
    method Append(s: string)
      modifies this
      ensures message == old(message) + Escape(s)
    {
      message := message + Escape(s);
    }

    method StartMessage()
      modifies this
      ensures message == old(message) + Header(project, build)
    {
      ghost var m0 := message;
      AppendBrokenBuildNotification();
      message := message + Escape(project.fullDisplayName);
      AppendBranch();
      message := message + " - ";
      message := message + Escape(build.displayName);
      message := message + " ";
      Associative6(m0, BrokenBuildNotification(project, build), Escape(project.fullDisplayName),
                   BranchText(build), " - ", Escape(build.displayName), " ");
    }

    method AppendBranch()
      modifies this
      ensures message == old(message) + BranchText(build)
    {
      var branch := BuildBranch(build);
      if branch.Some? {
        message := message + "(branch: " + branch.value + ")";
      }
    }

    method AppendBrokenBuildNotification()
      modifies this
      ensures message == old(message) + BrokenBuildNotification(project, build)
    {
      ghost var m0 := message;
      var userId := GetUserId(build);
      if build.result == Failure && userId.Some? {
        AppendSendTo(userId);
        AppendBranchNotice(userId.value);
        Associative2(m0, SendTo(userId), BranchNotice(project, build, userId.value));
      } else {
        EmptySuffix(m0);
      }
    }

    method AppendBranchNotice(userId: string)
      modifies this
      ensures message == old(message) + BranchNotice(project, build, userId)
    {
      ghost var m0 := message;
      var branch := BuildBranch(build);
      if branch.Some? && EqualsIgnoreCase("stable", branch.value) {
        message := message + StableNotice;
        AppendCulpritMention(userId);
        Associative2(m0, StableNotice, CulpritMention(userId, FirstFailedUser(project)));
      } else {
        message := message + Reminder;
      }
    }

    /** The stable-branch part after the notice: the culprit of the first failed
        build is mentioned when known and different from userId. */
    method AppendCulpritMention(userId: string)
      modifies this
      ensures message == old(message) + CulpritMention(userId, FirstFailedUser(project))
    {
      var first := FirstFailedBuild(project);
      var firstUserId: Option<string> := None;
      if first.Some? {
        firstUserId := GetUserId(first.value);
      }
      assert firstUserId == FirstFailedUser(project);
      ghost var m0 := message;
      if firstUserId.Some? && userId != firstUserId.value {
        AppendSendTo(firstUserId);
        message := message + CulpritNotice;
        Associative2(m0, SendTo(firstUserId), CulpritNotice);
      } else {
        EmptySuffix(m0);
      }
    }

    method AppendOpenLink()
      modifies this
      ensures message == old(message) + OpenLink(site, build)
    {
      message := message + " (<" + (site.buildServerUrl + build.url) + "|Open>)";
    }

    method AppendDuration()
      modifies this
      ensures message == old(message) + Duration(build)
    {
      message := message + " after ";
      message := message + build.durationString;
    }

    method AppendTestSummary()
      modifies this
      ensures message == old(message) + TestSummary(build)
    {
      if build.testResult.Some? {
        var t := build.testResult.value;
        ghost var m0 := message;
        message := message + "\nTest Status:\n";
        message := message + ("\tPassed: " + IntToString(t.total - t.failed - t.skipped));
        message := message + (", Failed: " + IntToString(t.failed));
        message := message + (", Skipped: " + IntToString(t.skipped));
        Regroup7(m0, "\nTest Status:\n", "\tPassed: ", IntToString(t.total - t.failed - t.skipped),
                 ", Failed: ", IntToString(t.failed), ", Skipped: ", IntToString(t.skipped));
      } else {
        message := message + "\nNo Tests found.";
      }
    }

    method AppendCustomMessage()
      requires project.property.Some?
      modifies this
      ensures message == old(message) + CustomMessage(project, build)
    {
      var expanded := if project.property.value.customMessage == "" then "null" else build.expandedCustomMessage;
      message := message + "\n";
      message := message + expanded;
    }

    method AppendSendTo(userId: Option<string>)
      modifies this
      ensures message == old(message) + SendTo(userId)
    {
      message := message + "<@" + (if userId.Some? then userId.value else "null") + ">";
    }

    method AppendSendToEverybody()
      modifies this
      ensures message == old(message) + SendToEverybody()
    {
      message := message + "<!" + "channel" + ">";
    }
  }

  // Helpers: string-concatenation facts that steer the solver; they model nothing.

  lemma Associative6(m: string, a: string, b: string, c: string, d: string, e: string, f: string)
    ensures m + a + b + c + d + e + f == m + (a + b + c + d + e + f)
  {
  }

  lemma Regroup7(m: string, a: string, b: string, c: string, d: string, e: string, f: string, g: string)
    ensures m + a + (b + c) + (d + e) + (f + g) == m + (a + b + c + d + e + f + g)
  {
  }

  lemma EmptySuffix(m: string)
    ensures m + "" == m
  {
  }

  lemma EmptyPrefix(m: string)
    ensures "" + m == m
  {
  }

  lemma Associative2(m: string, a: string, b: string)
    ensures m + a + b == m + (a + (b + "")) == m + (a + b)
  {
  }

  lemma AppendLine(x: string, y: string, z: string, w: string)
    ensures x + y + (z + w) == x + (y + z + w)
  {
  }
}
