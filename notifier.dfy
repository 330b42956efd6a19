/** ActiveNotifier: the colour of a result, the change and commit summaries, the
    status message, and what the started and completed tasks post. Posting is
    modelled as appending a (text, colour) pair to the run's list of posts. */
module Notifier {
  import opened Jenkins
  import opened Text
  import opened Escaping
  import opened Causes
  import opened Messages

  datatype Color = Good | Danger | Warning

  /** The colour names the chat service receives. */
  function ColorName(c: Color): string
  {
    match c
    case Good => "good"
    case Danger => "danger"
    case Warning => "warning"
  }

  /** getBuildColor: total over results, a null result included. */
  function BuildColor(result: BuildResult): (c: Color)
    ensures c == Good <==> result == Success
    ensures c == Danger <==> result == Failure
    ensures c == Warning <==> result != Success && result != Failure
  {
    if result == Success then Good
    else if result == Failure then Danger
    else Warning
  }

  datatype Post = Post(text: string, color: Color)

  /** The posts a task made, in order, and whether it ended by throwing. */
  datatype TaskRun = TaskRun(posts: seq<Post>, crashed: bool)

  /** Why getCommitList throws: the upstream project or build is not found (a null
      dereference), or the recursion outgrows the stack. */
  datatype Fault = MissingUpstreamProject | MissingUpstreamBuild | RecursionTooDeep

  datatype Outcome<T> = Ok(value: T) | Crash(fault: Fault)

  // ---------------------------------------------------------------- getChanges

  /** The HashSet of affected files the first loop of getChanges fills. */
  function AffectedFiles(es: seq<ChangeEntry>): (files: set<string>)
    ensures forall f :: f in files <==> exists k :: 0 <= k < |es| && f in es[k].affectedFiles
    decreases |es|
  {
    if es == [] then {}
    else
      var init := es[..|es| - 1];
      var last := es[|es| - 1];
      assert forall k :: 0 <= k < |init| ==> init[k] == es[k];
      AffectedFiles(init) + (set f | f in last.affectedFiles)
  }

  /** The author display names, one per entry, in entry order. */
  function AuthorNames(es: seq<ChangeEntry>): (names: seq<string>)
    ensures |names| == |es|
    ensures forall k :: 0 <= k < |es| ==> names[k] == es[k].author
    decreases |es|
  {
    if es == [] then [] else AuthorNames(es[..|es| - 1]) + [es[|es| - 1].author]
  }

  /** getChanges: None when no change set was computed or it has no entries;
      otherwise the header, the distinct authors, the number of distinct affected
      files and the link. */
  function Changes(site: Site, p: Project, b: Build): (r: Option<string>)
    ensures r.None? <==> !b.changeSet.computed || b.changeSet.items == []
  {
    var items := b.changeSet.items;
    if !b.changeSet.computed || items == [] then None
    else
      Some(Header(p, b) + Escape("Started by changes from ") + Escape(Join(Dedup(AuthorNames(items)), ", ")) +
           Escape(" (") + Escape(IntToString(|AffectedFiles(items)|)) + Escape(" file(s) changed)") +
           OpenLink(site, b))
  }

  /** The first loop of getChanges: the entries in order and the HashSet of
      their affected files. */
  method CollectEntries(items: seq<ChangeEntry>) returns (entries: seq<ChangeEntry>, files: set<string>)
    ensures entries == items
    ensures files == AffectedFiles(items)
  {
    entries := [];
    files := {};
    for k := 0 to |items|
      invariant entries == items[..k]
      invariant files == AffectedFiles(entries)
    {
      assert items[..k + 1][..k] == items[..k];
      entries := entries + [items[k]];
      files := files + (set f | f in items[k].affectedFiles);
    }
  }

  /** The second loop of getChanges: the HashSet of author names. */
  method CollectAuthors(entries: seq<ChangeEntry>) returns (authors: seq<string>)
    ensures authors == Dedup(AuthorNames(entries))
  {
    authors := [];
    for k := 0 to |entries|
      invariant authors == Dedup(AuthorNames(entries[..k]))
    {
      assert entries[..k + 1][..k] == entries[..k];
      DedupSnoc(AuthorNames(entries[..k]), entries[k].author);
      if entries[k].author !in authors {
        authors := authors + [entries[k].author];
      }
    }
    assert entries[..|entries|] == entries;
  }

  method GetChanges(site: Site, p: Project, b: Build) returns (r: Option<string>)
    ensures r == Changes(site, p, b)
  {
    if !b.changeSet.computed {
      return None;
    }
    var entries, files := CollectEntries(b.changeSet.items);
    if entries == [] {
      return None;
    }
    var authors := CollectAuthors(entries);
    var m := new MessageBuilder(site, p, b);
    m.Append("Started by changes from ");
    m.Append(Join(authors, ", "));
    m.Append(" (");
    m.Append(IntToString(|files|));
    m.Append(" file(s) changed)");
    m.AppendOpenLink();
    r := Some(m.message);
  }

  /** What getChanges reports after the header: one escaped sentence with the
      authors and the count of distinct affected files, then the link. */
  lemma ChangesReport(site: Site, p: Project, b: Build)
    requires b.changeSet.computed && b.changeSet.items != []
    ensures var items := b.changeSet.items;
      Changes(site, p, b) == Some(Header(p, b) +
        Escape("Started by changes from " + Join(Dedup(AuthorNames(items)), ", ") + " (" +
               IntToString(|AffectedFiles(items)|) + " file(s) changed)") +
        OpenLink(site, b))
  {
    var items := b.changeSet.items;
    var a0, a1, a2 := "Started by changes from ", Join(Dedup(AuthorNames(items)), ", "), " (";
    var a3, a4 := IntToString(|AffectedFiles(items)|), " file(s) changed)";
    EscapeFive(a0, a1, a2, a3, a4);
    Regroup(Header(p, b), Escape(a0), Escape(a1), Escape(a2), Escape(a3), Escape(a4), OpenLink(site, b));
  }

  /** The authors getChanges names: each author of an entry, exactly once. */
  lemma ChangeAuthors(items: seq<ChangeEntry>)
    ensures var authors := Dedup(AuthorNames(items));
      (forall a :: a in authors <==> exists k :: 0 <= k < |items| && items[k].author == a) &&
      (forall i, j :: 0 <= i < j < |authors| ==> authors[i] != authors[j])
  {
    var names := AuthorNames(items);
    forall a
      ensures a in Dedup(names) <==> exists k :: 0 <= k < |items| && items[k].author == a
    {
      if a in names {
        var k :| 0 <= k < |items| && names[k] == a;
      }
    }
  }

  /** Commits touching files a, b and b, c: the overlap is counted once. */
  lemma ChangesScenarioFiles(x: string, m1: string, m2: string, a: string, b: string, c: string)
    requires a != b && b != c && a != c
    ensures var items := [ChangeEntry(x, m1, [a, b]), ChangeEntry(x, m2, [b, c])];
      AffectedFiles(items) == {a, b, c} && |AffectedFiles(items)| == 3
  {
    var items := [ChangeEntry(x, m1, [a, b]), ChangeEntry(x, m2, [b, c])];
    var files := AffectedFiles(items);
    forall f
      ensures f in files <==> f == a || f == b || f == c
    {
      assert f in items[0].affectedFiles <==> f == a || f == b;
      assert f in items[1].affectedFiles <==> f == b || f == c;
    }
    assert files == {a, b, c};
    ThreeElements(a, b, c);
  }

  /** Two commits by the same author: the author is named once. */
  lemma ChangesScenarioAuthors(x: string, m1: string, m2: string, f1: seq<string>, f2: seq<string>)
    ensures Dedup(AuthorNames([ChangeEntry(x, m1, f1), ChangeEntry(x, m2, f2)])) == [x]
  {
    var items := [ChangeEntry(x, m1, f1), ChangeEntry(x, m2, f2)];
    assert AuthorNames(items) == [x] + [x];
    assert Dedup([x]) == [x] by {
      assert [] + [x] == [x];
      DedupSnoc([], x);
    }
    DedupSnoc([x], x);
  }

  // ------------------------------------------------------------- getCommitList

  /** One "<msg> [<author>]" line per entry, in entry order. */
  function CommitLines(es: seq<ChangeEntry>): (lines: seq<string>)
    ensures |lines| == |es|
    ensures forall k :: 0 <= k < |es| ==> lines[k] == es[k].msg + " [" + es[k].author + "]"
    decreases |es|
  {
    if es == [] then []
    else CommitLines(es[..|es| - 1]) + [es[|es| - 1].msg + " [" + es[|es| - 1].author + "]"]
  }

  /** The lines getCommitList joins: each entry's line, exactly once. */
  lemma CommitLinesOnce(items: seq<ChangeEntry>)
    ensures var lines := Dedup(CommitLines(items));
      (forall l :: l in lines <==>
         exists k :: 0 <= k < |items| && l == items[k].msg + " [" + items[k].author + "]") &&
      (forall i, j :: 0 <= i < j < |lines| ==> lines[i] != lines[j])
  {
    var all := CommitLines(items);
    forall l
      ensures l in Dedup(all) <==> exists k :: 0 <= k < |items| && l == items[k].msg + " [" + items[k].author + "]"
    {
      if l in all {
        var k :| 0 <= k < |items| && all[k] == l;
      }
    }
  }

  /** The build whose entries getCommitList reports: b itself when it has entries,
      otherwise the one its first upstream cause leads to, looked up by project
      full name and build number; Ok(None) when a build without entries has no
      upstream cause. Fuel bounds the recursion, which the code leaves unbounded. */
  function CommitSource(site: Site, p: Project, b: Build, fuel: nat): (r: Outcome<Option<(Project, Build)>>)
    ensures b.changeSet.items != [] ==> r == Ok(Some((p, b)))
    ensures b.changeSet.items == [] && UpstreamCauseOf(b).None? ==> r == Ok(None)
    ensures r.Ok? && r.value.Some? ==> r.value.value.1.changeSet.items != []
    decreases fuel
  {
    if b.changeSet.items != [] then Ok(Some((p, b)))
    else
      match UpstreamCauseOf(b)
      case None => Ok(None)
      case Some(c) =>
        if fuel == 0 then Crash(RecursionTooDeep)
        else
          match ItemByFullName(site.projects, c.upstreamProject)
          case None => Crash(MissingUpstreamProject)
          case Some(up) =>
            match BuildByNumber(up.history, c.upstreamBuild)
            case None => Crash(MissingUpstreamBuild)
            case Some(ub) => CommitSource(site, up, ub, fuel - 1)
  }

  /** The commit list of a build with entries: header, then its distinct commit
      lines joined. */
  function CommitSummary(p: Project, b: Build): string
  {
    Header(p, b) + Escape("Changes:\n- ") + Escape(Join(Dedup(CommitLines(b.changeSet.items)), "\n- "))
  }

  /** getCommitList. */
  function CommitList(site: Site, p: Project, b: Build, fuel: nat): (r: Outcome<string>)
    ensures b.changeSet.items != [] ==> r == Ok(CommitSummary(p, b))
    ensures b.changeSet.items == [] && UpstreamCauseOf(b).None? ==> r == Ok("No Changes.")
  {
    match CommitSource(site, p, b, fuel)
    case Crash(f) => Crash(f)
    case Ok(None) => Ok("No Changes.")
    case Ok(Some(src)) => Ok(CommitSummary(src.0, src.1))
  }

  /** The recursion of getCommitList: a build without entries is replaced by the
      build of its first upstream cause until one with entries is found. */
  method FindCommitSource(site: Site, p: Project, b: Build, fuel: nat)
    returns (r: Outcome<Option<(Project, Build)>>)
    ensures r == CommitSource(site, p, b, fuel)
    decreases fuel
  {
    if b.changeSet.items != [] {
      return Ok(Some((p, b)));
    }
    var c := UpstreamCauseOf(b);
    if c.None? {
      return Ok(None);
    }
    if fuel == 0 {
      return Crash(RecursionTooDeep);
    }
    var up := ItemByFullName(site.projects, c.value.upstreamProject);
    if up.None? {
      return Crash(MissingUpstreamProject);
    }
    var upBuild := BuildByNumber(up.value.history, c.value.upstreamBuild);
    if upBuild.None? {
      return Crash(MissingUpstreamBuild);
    }
    r := FindCommitSource(site, up.value, upBuild.value, fuel - 1);
  }

  method GetCommitList(site: Site, p: Project, b: Build, fuel: nat) returns (r: Outcome<string>)
    ensures r == CommitList(site, p, b, fuel)
  {
    var source := FindCommitSource(site, p, b, fuel);
    match source
    case Crash(f) =>
      r := Crash(f);
    case Ok(None) =>
      r := Ok("No Changes.");
    case Ok(Some(src)) =>
      var text := GetCommitSummary(site, src.0, src.1);
      r := Ok(text);
  }

  /** The loop of getCommitList: the HashSet of "message [author]" lines. */
  method CollectCommitLines(items: seq<ChangeEntry>) returns (commits: seq<string>)
    ensures commits == Dedup(CommitLines(items))
  {
    commits := [];
    for k := 0 to |items|
      invariant commits == Dedup(CommitLines(items[..k]))
    {
      assert items[..k + 1][..k] == items[..k];
      var commit := items[k].msg + " [" + items[k].author + "]";
      DedupSnoc(CommitLines(items[..k]), commit);
      if commit !in commits {
        commits := commits + [commit];
      }
    }
    assert items[..|items|] == items;
  }

  /** The second half of getCommitList: the message built from the commit lines. */
  method GetCommitSummary(site: Site, p: Project, b: Build) returns (text: string)
    ensures text == CommitSummary(p, b)
  {
    var commits := CollectCommitLines(b.changeSet.items);
    var m := new MessageBuilder(site, p, b);
    m.Append("Changes:\n- ");
    m.Append(Join(commits, "\n- "));
    text := m.message;
  }

  /** With an upstream project and build to follow, an empty change set reports
      exactly what the upstream build reports. */
  lemma CommitListFollowsUpstream(site: Site, p: Project, b: Build, fuel: nat,
                                  up: Project, ub: Build)
    requires b.changeSet.items == [] && fuel > 0
    requires UpstreamCauseOf(b).Some?
    requires ItemByFullName(site.projects, UpstreamCauseOf(b).value.upstreamProject) == Some(up)
    requires BuildByNumber(up.history, UpstreamCauseOf(b).value.upstreamBuild) == Some(ub)
    ensures CommitList(site, p, b, fuel) == CommitList(site, up, ub, fuel - 1)
  {
    assert CommitSource(site, p, b, fuel) == CommitSource(site, up, ub, fuel - 1);
  }

  lemma {:induction false} CommitSourceFuelMonotone(site: Site, p: Project, b: Build, f: nat, g: nat)
    requires f <= g && CommitSource(site, p, b, f).Ok?
    ensures CommitSource(site, p, b, g) == CommitSource(site, p, b, f)
    decreases f
  {
    if b.changeSet.items == [] && UpstreamCauseOf(b).Some? {
      var c := UpstreamCauseOf(b).value;
      var up := ItemByFullName(site.projects, c.upstreamProject).value;
      var ub := BuildByNumber(up.history, c.upstreamBuild).value;
      CommitSourceFuelMonotone(site, up, ub, f - 1, g - 1);
    }
  }

  /** Fuel is only a bound: once the walk succeeds, more fuel gives the same text. */
  lemma CommitListFuelMonotone(site: Site, p: Project, b: Build, f: nat, g: nat)
    requires f <= g && CommitList(site, p, b, f).Ok?
    ensures CommitList(site, p, b, g) == CommitList(site, p, b, f)
  {
    CommitSourceFuelMonotone(site, p, b, f, g);
  }

  // ---------------------------------------------------- getBuildStatusMessage

  /** getBuildStatusMessage: header, escaped status label, duration, link, then the
      test summary and the custom message when asked for. */
  function BuildStatusMessage(site: Site, p: Project, b: Build, includeTestSummary: bool,
                              includeCustomMessage: bool): string
    requires b.building || |p.history| > 0
    requires includeCustomMessage ==> p.property.Some?
  {
    Header(p, b) + Escape(StatusText(StatusMessage(p, b))) + Duration(b) + OpenLink(site, b) +
    (if includeTestSummary then TestSummary(b) else "") +
    (if includeCustomMessage then CustomMessage(p, b) else "")
  }

  method GetBuildStatusMessage(site: Site, p: Project, b: Build, includeTestSummary: bool,
                               includeCustomMessage: bool) returns (text: string)
    requires b.building || |p.history| > 0
    requires includeCustomMessage ==> p.property.Some?
    ensures text == BuildStatusMessage(site, p, b, includeTestSummary, includeCustomMessage)
  {
    var m := new MessageBuilder(site, p, b);
    m.AppendStatusMessage();
    m.AppendDuration();
    m.AppendOpenLink();
    ghost var base := m.message;
    ghost var tests := if includeTestSummary then TestSummary(b) else "";
    ghost var custom := if includeCustomMessage then CustomMessage(p, b) else "";
    if includeTestSummary {
      m.AppendTestSummary();
    } else {
      EmptySuffix(base);
    }
    assert m.message == base + tests;
    if includeCustomMessage {
      m.AppendCustomMessage();
    } else {
      EmptySuffix(base + tests);
    }
    assert m.message == base + tests + custom;
    text := m.message;
  }

  // --------------------------------------------------- CompletedTask.run

  /** The walk in CompletedTask.run from candidate build j: step back through
      completed builds while they are ABORTED. */
  function SkipAborted(h: seq<Build>, j: int): (r: int)
    requires -1 <= j < |h|
    requires j >= 0 ==> !h[j].building
    ensures -1 <= r <= j
    ensures r >= 0 ==> !h[r].building && h[r].result != Aborted
    ensures forall k :: r < k <= j ==> h[k].building || h[k].result == Aborted
    decreases j + 1
  {
    if j < 0 || h[j].result != Aborted then j
    else SkipAborted(h, PreviousCompletedIndex(h, j))
  }

  /** The build the completion decision compares with: the latest completed,
      non-aborted build before the project's last build, or -1. */
  function PreviousNonAbortedIndex(h: seq<Build>): (r: int)
    requires |h| > 0
    ensures -1 <= r < |h| - 1
    ensures r >= 0 ==> !h[r].building && h[r].result != Aborted
    ensures forall k :: r < k < |h| - 1 ==> h[k].building || h[k].result == Aborted
  {
    SkipAborted(h, PreviousCompletedIndex(h, |h| - 1))
  }

  /** previousResult in CompletedTask.run, SUCCESS when no build qualifies. */
  function PreviousNonAbortedResult(h: seq<Build>): BuildResult
    requires |h| > 0
  {
    var r := PreviousNonAbortedIndex(h);
    if r >= 0 then h[r].result else Success
  }

  /** The do-while loop of CompletedTask.run. */
  method FindPreviousResult(h: seq<Build>) returns (previous: BuildResult)
    requires |h| > 0
    ensures previous == PreviousNonAbortedResult(h)
  {
    var i := PreviousCompletedIndex(h, |h| - 1);
    while i >= 0 && h[i].result == Aborted
      invariant -1 <= i < |h| - 1
      invariant i >= 0 ==> !h[i].building
      invariant SkipAborted(h, i) == PreviousNonAbortedIndex(h)
      decreases i
    {
      i := PreviousCompletedIndex(h, i);
    }
    previous := if i >= 0 then h[i].result else Success;
  }

  /** The six-clause condition of CompletedTask.run, characterised result by result. */
  function ShouldNotify(result: BuildResult, previous: BuildResult, prop: JobProperty): (notify: bool)
    ensures result == Aborted ==> (notify <==> prop.notifyAborted)
    ensures result == Failure ==>
      (notify <==> prop.notifyFailure && (previous != Failure || prop.notifyRepeatedFailure))
    ensures result == NotBuilt ==> (notify <==> prop.notifyNotBuilt)
    ensures result == Success ==>
      (notify <==> prop.notifySuccess ||
                   (prop.notifyBackToNormal && (previous == Failure || previous == Unstable)))
    ensures result == Unstable ==> (notify <==> prop.notifyUnstable)
    ensures result.Unknown? ==> !notify
  {
    (result == Aborted && prop.notifyAborted)
    || (result == Failure && (previous != Failure || prop.notifyRepeatedFailure) && prop.notifyFailure)
    || (result == NotBuilt && prop.notifyNotBuilt)
    || (result == Success && (previous == Failure || previous == Unstable) && prop.notifyBackToNormal)
    || (result == Success && prop.notifySuccess)
    || (result == Unstable && prop.notifyUnstable)
  }

  /** What CompletedTask.run posts once the condition holds: the status message,
      then the commit list when showCommitList is set, both in the build's colour.
      A failing commit-list lookup ends the task after the status post. */
  function CompletionPosts(site: Site, p: Project, b: Build, fuel: nat): TaskRun
    requires |p.history| > 0 && p.property.Some?
  {
    var prop := p.property.value;
    var color := BuildColor(b.result);
    var status := Post(BuildStatusMessage(site, p, b, prop.includeTestSummary, prop.includeCustomMessage), color);
    if !prop.showCommitList then TaskRun([status], false)
    else
      match CommitList(site, p, b, fuel)
      case Ok(t) => TaskRun([status, Post(t, color)], false)
      case Crash(_) => TaskRun([status], true)
  }

  /** CompletedTask.run: nothing without a job property or when the condition
      fails. */
  function CompletedRun(site: Site, p: Project, b: Build, fuel: nat): TaskRun
    requires |p.history| > 0
  {
    match p.property
    case None => TaskRun([], false)
    case Some(prop) =>
      if ShouldNotify(b.result, PreviousNonAbortedResult(p.history), prop) then CompletionPosts(site, p, b, fuel)
      else TaskRun([], false)
  }

  method PublishCompletion(site: Site, p: Project, b: Build, fuel: nat) returns (run: TaskRun)
    requires |p.history| > 0 && p.property.Some?
    ensures run == CompletionPosts(site, p, b, fuel)
  {
    var prop := p.property.value;
    var color := BuildColor(b.result);
    var status := GetBuildStatusMessage(site, p, b, prop.includeTestSummary, prop.includeCustomMessage);
    if !prop.showCommitList {
      return TaskRun([Post(status, color)], false);
    }
    var commits := GetCommitList(site, p, b, fuel);
    if commits.Crash? {
      return TaskRun([Post(status, color)], true);
    }
    run := TaskRun([Post(status, color), Post(commits.value, color)], false);
  }

  method RunCompletedTask(site: Site, p: Project, b: Build, fuel: nat) returns (run: TaskRun)
    requires |p.history| > 0
    ensures run == CompletedRun(site, p, b, fuel)
  {
    if p.property.None? {
      return TaskRun([], false);
    }
    var previous := FindPreviousResult(p.history);
    if !ShouldNotify(b.result, previous, p.property.value) {
      return TaskRun([], false);
    }
    run := PublishCompletion(site, p, b, fuel);
  }

  /** The completed task posts nothing exactly when there is no job property or
      the condition fails, and it throws only from the commit list. */
  lemma CompletedPostsWhen(site: Site, p: Project, b: Build, fuel: nat)
    requires |p.history| > 0
    ensures var run := CompletedRun(site, p, b, fuel);
      (run.posts == [] <==>
        p.property.None? || !ShouldNotify(b.result, PreviousNonAbortedResult(p.history), p.property.value)) &&
      (run.crashed ==> p.property.Some? && p.property.value.showCommitList && CommitList(site, p, b, fuel).Crash?)
  {
  }

  /** Once the condition holds: the status message first, the commit list second
      and only when showCommitList is set and the list resolves, both in the
      build's colour. */
  lemma CompletionPostsOrder(site: Site, p: Project, b: Build, fuel: nat)
    requires |p.history| > 0 && p.property.Some?
    ensures var run := CompletionPosts(site, p, b, fuel);
      var prop := p.property.value;
      1 <= |run.posts| <= 2 &&
      run.posts[0] == Post(BuildStatusMessage(site, p, b, prop.includeTestSummary, prop.includeCustomMessage),
                           BuildColor(b.result)) &&
      (|run.posts| == 2 <==> prop.showCommitList && CommitList(site, p, b, fuel).Ok?) &&
      (|run.posts| == 2 ==> run.posts[1] == Post(CommitList(site, p, b, fuel).value, BuildColor(b.result))) &&
      (run.crashed <==> prop.showCommitList && CommitList(site, p, b, fuel).Crash?)
  {
  }

  /** A FAILURE after a FAILURE is silent unless repeated failures are asked for. */
  lemma RepeatedFailureIsSilent(site: Site, p: Project, b: Build, fuel: nat)
    requires |p.history| > 0 && p.property.Some? && !p.property.value.notifyRepeatedFailure
    requires b.result == Failure && PreviousNonAbortedResult(p.history) == Failure
    ensures CompletedRun(site, p, b, fuel).posts == []
  {
  }

  /** History SUCCESS, ABORTED, FAILURE: the abort is skipped, the failure follows a
      success and is posted in red. */
  lemma AbortedBuildIsSkipped(site: Site, p: Project, ok: Build, aborted: Build, b: Build, fuel: nat)
    requires !ok.building && ok.result == Success
    requires !aborted.building && aborted.result == Aborted
    requires !b.building && b.result == Failure
    requires p.history == [ok, aborted, b]
    requires p.property.Some? && p.property.value.notifyFailure
    ensures PreviousNonAbortedResult(p.history) == Success
    ensures var run := CompletedRun(site, p, b, fuel);
      |run.posts| >= 1 && run.posts[0].color == Danger && ColorName(run.posts[0].color) == "danger"
  {
    var h := p.history;
    assert PreviousCompletedIndex(h, 2) == 1;
    assert PreviousCompletedIndex(h, 1) == 0;
    assert SkipAborted(h, 1) == 0;
  }

  /** The completed task builds the corrected header. On the input where the
      header as written dereferences null (a sole build failing on "stable",
      started by alice), the code throws before its first post, while the model
      posts the status message. */
  lemma CompletedRunUsesCorrectedHeader(site: Site, prop: JobProperty, fuel: nat)
    requires prop.notifyFailure
    ensures var b := Build(1, false, Failure, "#1", "job/p/1/", "1 sec",
                           Some(map["BUILD_BRANCH" := "stable"]), Some([UserIdCause(Some("alice"))]),
                           "Started by user alice", ChangeSet(true, []), None, "");
      var p := Project("p", "p", "p", [b], Some(prop));
      BrokenBuildNotificationAsWritten(p, b).None? &&
      |CompletedRun(site, p, b, fuel).posts| >= 1
  {
    var b := Build(1, false, Failure, "#1", "job/p/1/", "1 sec",
                   Some(map["BUILD_BRANCH" := "stable"]), Some([UserIdCause(Some("alice"))]),
                   "Started by user alice", ChangeSet(true, []), None, "");
    var p := Project("p", "p", "p", [b], Some(prop));
    FirstFailedBuildNullDereference();
    assert PreviousCompletedIndex(p.history, 0) == -1;
    assert PreviousNonAbortedResult(p.history) == Success;
    assert ShouldNotify(b.result, Success, prop);
    assert CompletedRun(site, p, b, fuel) == CompletionPosts(site, p, b, fuel);
  }

  // ---------------------------------------------------- StartedTask.run, notifyStart

  /** notifyStart's colour: "good" when the project's last build has no previous
      completed build, else that build's colour, aborted or not. */
  function StartColor(p: Project): Color
    requires |p.history| > 0
  {
    var j := PreviousCompletedIndex(p.history, |p.history| - 1);
    if j < 0 then Good else BuildColor(p.history[j].result)
  }

  lemma StartColorCases(p: Project)
    requires |p.history| > 0
    ensures var h := p.history;
      var j := PreviousCompletedIndex(h, |h| - 1);
      (StartColor(p) == Good <==> j < 0 || h[j].result == Success) &&
      (StartColor(p) == Danger <==> j >= 0 && h[j].result == Failure) &&
      (j >= 0 && h[j].result == Aborted ==> StartColor(p) == Warning)
  {
  }

  /** The first message of StartedTask.run: the QA3 alert, the header, the escaped
      cause description and the link. */
  function CauseMessage(site: Site, p: Project, b: Build): string
  {
    Qa3Alert(site, p, b) + Header(p, b) + Escape(b.causeDescription) + OpenLink(site, b)
  }

  /** The cause message is sent when the build has a CauseAction without an SCM
      trigger cause. */
  predicate SendsCauseMessage(b: Build)
  {
    b.causeAction.Some? && !HasScmTriggerCause(b.causeAction.value)
  }

  /** The second message of StartedTask.run: the change summary or, failing that,
      the status message without test summary. */
  function StartSummary(site: Site, p: Project, b: Build): string
    requires |p.history| > 0 && p.property.Some?
  {
    match Changes(site, p, b)
    case Some(t) => t
    case None => BuildStatusMessage(site, p, b, false, p.property.value.includeCustomMessage)
  }

  /** StartedTask.run: without a job property it throws before posting (getSlack
      reads the property); otherwise the optional cause message, then the summary,
      all in the start colour. */
  function StartedRun(site: Site, p: Project, b: Build): TaskRun
    requires |p.history| > 0
  {
    match p.property
    case None => TaskRun([], true)
    case Some(prop) =>
      var color := StartColor(p);
      if SendsCauseMessage(b) then
        TaskRun([Post(CauseMessage(site, p, b), color), Post(StartSummary(site, p, b), color)], false)
      else TaskRun([Post(StartSummary(site, p, b), color)], false)
  }

  method GetCauseMessage(site: Site, p: Project, b: Build) returns (text: string)
    ensures text == CauseMessage(site, p, b)
  {
    var m := new MessageBuilder.WithQa3Check(site, p, b, true);
    m.Append(b.causeDescription);
    m.AppendOpenLink();
    text := m.message;
  }

  method GetStartSummary(site: Site, p: Project, b: Build) returns (text: string)
    requires |p.history| > 0 && p.property.Some?
    ensures text == StartSummary(site, p, b)
  {
    var changes := GetChanges(site, p, b);
    if changes.Some? {
      text := changes.value;
    } else {
      text := GetBuildStatusMessage(site, p, b, false, p.property.value.includeCustomMessage);
    }
  }

  method RunStartedTask(site: Site, p: Project, b: Build) returns (run: TaskRun)
    requires |p.history| > 0
    ensures run == StartedRun(site, p, b)
  {
    if p.property.None? {
      return TaskRun([], true);
    }
    var color := StartColor(p);
    var sendsCause := false;
    if b.causeAction.Some? {
      var scm := HasScmTriggerCause(b.causeAction.value);
      sendsCause := !scm;
    }
    assert sendsCause == SendsCauseMessage(b);
    if sendsCause {
      var cause := GetCauseMessage(site, p, b);
      var summary := GetStartSummary(site, p, b);
      run := TaskRun([Post(cause, color), Post(summary, color)], false);
    } else {
      var summary := GetStartSummary(site, p, b);
      run := TaskRun([Post(summary, color)], false);
    }
  }

  /** With a job property the started task posts one or two messages, two exactly
      when the cause message is sent, the cause message first and the summary
      last. */
  lemma StartedPosts(site: Site, p: Project, b: Build)
    requires |p.history| > 0 && p.property.Some?
    ensures var run := StartedRun(site, p, b);
      !run.crashed &&
      |run.posts| == (if SendsCauseMessage(b) then 2 else 1) &&
      (SendsCauseMessage(b) ==> run.posts[0].text == CauseMessage(site, p, b)) &&
      run.posts[|run.posts| - 1].text == StartSummary(site, p, b)
  {
    var color := StartColor(p);
    var cause, summary := CauseMessage(site, p, b), StartSummary(site, p, b);
    if SendsCauseMessage(b) {
      assert StartedRun(site, p, b) == TaskRun([Post(cause, color), Post(summary, color)], false);
    } else {
      assert StartedRun(site, p, b) == TaskRun([Post(summary, color)], false);
    }
  }

  /** Every post of the started task has the start colour. */
  lemma StartedPostColors(site: Site, p: Project, b: Build)
    requires |p.history| > 0
    ensures var run := StartedRun(site, p, b);
      forall k :: 0 <= k < |run.posts| ==> run.posts[k].color == StartColor(p)
  {
  }

  /** The summary is the change summary whenever there is one. */
  lemma StartSummaryPrefersChanges(site: Site, p: Project, b: Build)
    requires |p.history| > 0 && p.property.Some?
    ensures b.changeSet.computed && b.changeSet.items != [] ==> StartSummary(site, p, b) == Changes(site, p, b).value
  {
  }

  /** A build triggered by an SCM poll gets no cause message. */
  lemma ScmTriggeredStartPostsOnce(site: Site, p: Project, b: Build, k: nat)
    requires |p.history| > 0 && p.property.Some?
    requires b.causeAction.Some? && k < |b.causeAction.value| && b.causeAction.value[k].ScmTriggerCause?
    ensures |StartedRun(site, p, b).posts| == 1
  {
  }

  // Helpers: concatenation, escaping and set-size facts that steer the solver;
  // they model nothing.

  /** Five fragments escaped one by one read as the escaped sentence. */
  lemma EscapeFive(a0: string, a1: string, a2: string, a3: string, a4: string)
    ensures Escape(a0) + Escape(a1) + Escape(a2) + Escape(a3) + Escape(a4) == Escape(a0 + a1 + a2 + a3 + a4)
  {
    EscapeAppend(a0, a1);
    EscapeAppend(a0 + a1, a2);
    EscapeAppend(a0 + a1 + a2, a3);
    EscapeAppend(a0 + a1 + a2 + a3, a4);
  }

  lemma Regroup(h: string, e0: string, e1: string, e2: string, e3: string, e4: string, link: string)
    ensures h + e0 + e1 + e2 + e3 + e4 + link == h + (e0 + e1 + e2 + e3 + e4) + link
  {
  }

  lemma ThreeElements(a: string, b: string, c: string)
    requires a != b && b != c && a != c
    ensures |{a, b, c}| == 3
  {
  }
}
