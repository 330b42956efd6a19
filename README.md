# ActiveNotifier, modelled in Dafny

This project models the decision and message-composition logic of
`ActiveNotifier` in the Slack plugin for Jenkins (gumtreeuk/slack-plugin). It
covers:

- the colour of a build result (`getBuildColor`);
- the status label (`MessageBuilder.getStatusMessage`);
- the markup escaping (`escape`);
- the `MessageBuilder` buffer: its header (`startMessage`, the broken-build
  mention, the branch) and its appenders (open link, duration, test summary,
  custom message, mentions, QA3 alert);
- who triggered a build (`findUserIdCause`, `getUserId`);
- the build after the last successful one (`findFirstFailedBuild`);
- the broken QA3 job filter (`getBrokenQa3TestBuilds`);
- the change summary (`getChanges`) and the commit list (`getCommitList`),
  including its walk into upstream builds;
- the status message (`getBuildStatusMessage`);
- what the started task (`StartedTask.run`, `notifyStart`) and the completed
  task (`CompletedTask.run`) post, and in which colour.

The Jenkins objects the notifier reads are plain values (`jenkins.dfy`). A
project's history runs oldest first, so its last build is the last element. A
`Site` holds the build-server URL and the project registry. Posting a message
becomes appending a `(text, colour)` pair to a `TaskRun`. A task that throws
ends with `crashed` set.

`MessageBuilder` is a `class` with a `message` field, and each appender is a
method that extends it. Every method's `ensures` ties the new buffer to the old
one plus a specification function. The properties are then proved about those
functions.

The loops in the source keep their form as `while` and `for` loops, each proved
against a specification function:

- the two `HashSet` loops of `getChanges`;
- the commit-line loop of `getCommitList`;
- the `while` loop of `findUserIdCause`;
- the `do`/`while` walk of `CompletedTask.run`;
- the filter loop of `getBrokenQa3TestBuilds`;
- the line loop of the QA3 alert.

Files:

- `jenkins.dfy` (module `Jenkins`): builds, causes, change sets, job
  properties, projects, and the host lookups.
- `text.dfy` (module `Text`): the Java string operations used.
- `escaping.dfy` (module `Escaping`): `escape` and its properties.
- `causes.dfy` (module `Causes`): `findUserIdCause` and `getUserId`.
- `messages.dfy` (module `Messages`): `MessageBuilder` and the text it
  builds.
- `notifier.dfy` (module `Notifier`): colours, summaries and the two tasks.

## Model

Source paths are relative to the repository root.

| member | source | states |
|---|---|---|
| Jenkins.PreviousCompletedIndex | src/main/java/jenkins/plugins/slack/ActiveNotifier.java:93 | getPreviousCompletedBuild: the nearest earlier build that is not building, with every build in between still building, or -1 |
| Jenkins.LastSuccessfulIndex | src/main/java/jenkins/plugins/slack/ActiveNotifier.java:435 | getLastSuccessfulBuild: the latest SUCCESS or UNSTABLE finished build, no later one qualifies, or -1 |
| Jenkins.BuildByNumber | src/main/java/jenkins/plugins/slack/ActiveNotifier.java:149 | a found build is in the history and has that number; None only when no build has it |
| Jenkins.ItemByFullName | src/main/java/jenkins/plugins/slack/ActiveNotifier.java:148 | a found project is registered under that full name; None only when none is |
| Jenkins.FirstUserIndex | src/main/java/jenkins/plugins/slack/ActiveNotifier.java:395 | findCause(UserIdCause): the first user cause in list order, none before it |
| Jenkins.FirstUpstreamIndex | src/main/java/jenkins/plugins/slack/ActiveNotifier.java:399 | findCause(UpstreamCause): the first upstream cause in list order, none before it |
| Jenkins.LastUpstreamIndex | src/main/java/jenkins/plugins/slack/ActiveNotifier.java:403-409 | the upstream cause the inner loop leaves in its variable: the last one of the list, none after it |
| Jenkins.UpstreamCauseOf | src/main/java/jenkins/plugins/slack/ActiveNotifier.java:142 | getCause(UpstreamCause): the first upstream cause of the CauseAction, and null exactly when there is no CauseAction or it holds no upstream cause |
| Text.ToLower | src/main/java/jenkins/plugins/slack/ActiveNotifier.java:219 | toLowerCase keeps the length and lowers each character in place |
| Text.NatToStringRoundTrip | src/main/java/jenkins/plugins/slack/ActiveNotifier.java:345-347 | the decimal text of a count is nonempty, all digits, and reads back to the count |
| Text.IntToStringRoundTrip | src/main/java/jenkins/plugins/slack/ActiveNotifier.java:345-347 | the text of every int, negative passed counts included, reads back to it |
| Text.Dedup | src/main/java/jenkins/plugins/slack/ActiveNotifier.java:119-122 | the HashSet filled in the loop: exactly the elements of the list, each once |
| Text.DedupSize | src/main/java/jenkins/plugins/slack/ActiveNotifier.java:119-122 | the deduplicated list is as long as the set of the list's elements |
| Text.DistinctCardinality | src/main/java/jenkins/plugins/slack/ActiveNotifier.java:127 | a duplicate-free list has as many elements as its set, so size() counts distinct elements |
| Text.DedupSnoc | src/main/java/jenkins/plugins/slack/ActiveNotifier.java:121 | Set.add grows the set by the element exactly when it is new |
| Escaping.EscapeAppend | src/main/java/jenkins/plugins/slack/ActiveNotifier.java:379-385 | escaping a concatenation escapes each part, so text escaped in pieces equals text escaped whole |
| Escaping.EscapeIsPerChar | src/main/java/jenkins/plugins/slack/ActiveNotifier.java:379-385 | the three successive replacements equal escaping each character on its own: no replacement rewrites an earlier one's output |
| Escaping.EscapeNeutralizes | src/main/java/jenkins/plugins/slack/ActiveNotifier.java:379-385 | escaped text holds no `<` and no `>`, and every `&` in it begins `&amp;`, `&lt;` or `&gt;` |
| Escaping.EscapeUnchangedIff | src/main/java/jenkins/plugins/slack/ActiveNotifier.java:379-385 | text is returned unchanged exactly when it holds none of `&`, `<`, `>` |
| Escaping.UnescapeEscape | src/main/java/jenkins/plugins/slack/ActiveNotifier.java:379-385 | escaping loses nothing: reading the three entities back restores the input |
| Causes.ResolveUpstream | src/main/java/jenkins/plugins/slack/ActiveNotifier.java:400-410 | the nested walk yields only a user cause: the level's first user cause when it has one, nothing when it has neither a user nor an upstream cause |
| Causes.TopLevelStartsFromFirstUpstream | src/main/java/jenkins/plugins/slack/ActiveNotifier.java:399 | without a direct user cause the walk starts from the FIRST upstream cause of the action |
| Causes.FirstAtTopLastBelow | src/main/java/jenkins/plugins/slack/ActiveNotifier.java:399-409 | two upstream causes leading to alice and bob: listed in the action, alice (the first) wins; listed one level down, bob (the last) wins |
| Causes.UserIdCauseOf | src/main/java/jenkins/plugins/slack/ActiveNotifier.java:392-415 | findUserIdCause yields only a user cause |
| Causes.FindUserIdCause | src/main/java/jenkins/plugins/slack/ActiveNotifier.java:392-415 | the while loop that overwrites its upstream cause returns exactly the cause the walk specification picks |
| Causes.GetUserId | src/main/java/jenkins/plugins/slack/ActiveNotifier.java:387-390 | the id of the resolved cause, null when none resolves |
| Causes.ResolveUpstreamSound | src/main/java/jenkins/plugins/slack/ActiveNotifier.java:400-410 | a resolved user cause really occurs somewhere below the upstream cause |
| Causes.UserIdCauseSound | src/main/java/jenkins/plugins/slack/ActiveNotifier.java:392-415 | a resolved cause is a user cause of the action or occurs below one of its upstream causes |
| Causes.DirectUserCauseWins | src/main/java/jenkins/plugins/slack/ActiveNotifier.java:395-397 | a direct user cause wins over every upstream cause |
| Causes.NestedFirstUserCauseWins | src/main/java/jenkins/plugins/slack/ActiveNotifier.java:403-405 | at a nested level the first user cause in list order is returned, even after upstream causes |
| Causes.NestedDescendsIntoLastUpstream | src/main/java/jenkins/plugins/slack/ActiveNotifier.java:406-408 | a nested level without user causes descends into its last upstream cause, and ends when it has none |
| Causes.NoCauseActionNoUser | src/main/java/jenkins/plugins/slack/ActiveNotifier.java:393-394 | without a CauseAction the user id is null |
| Causes.ChainScenarios | src/main/java/jenkins/plugins/slack/ActiveNotifier.java:399-409 | upstream, upstream, user "alice" resolves to alice; a user cause beside a later upstream cause wins |
| Messages.StatusLabel | src/main/java/jenkins/plugins/slack/ActiveNotifier.java:244-268 | a finished build gets exactly one of eight labels, each characterised by an if-and-only-if over result and previous result |
| Messages.StatusMessage | src/main/java/jenkins/plugins/slack/ActiveNotifier.java:240-243 | "Starting..." exactly while the build is building, whatever its result |
| Messages.PreviousAbsentCountsAsSuccess | src/main/java/jenkins/plugins/slack/ActiveNotifier.java:245-246 | with no previous build the previous result counts as SUCCESS, so never "Back to normal" or "Still Failing" |
| Messages.UnstablePreviousIsNotBackToNormal | src/main/java/jenkins/plugins/slack/ActiveNotifier.java:247-249 | after an UNSTABLE build the label is never "Back to normal" |
| Messages.AbortedPreviousIsNotSkipped | src/main/java/jenkins/plugins/slack/ActiveNotifier.java:245-254 | the previous build is taken as it is: a success after an abort is "Success" |
| Messages.BuildBranch | src/main/java/jenkins/plugins/slack/ActiveNotifier.java:317-324 | BUILD_BRANCH when set, else BRANCH; null exactly when neither is set or the environment cannot be read |
| Messages.FirstFailedIndex | src/main/java/jenkins/plugins/slack/ActiveNotifier.java:434-437 | the build right after the last successful one, with no success from there on; -1 exactly when nothing succeeded or the last build succeeded |
| Messages.AsWrittenAgreesWhenItReturns | src/main/java/jenkins/plugins/slack/ActiveNotifier.java:299-315 | the appender as written throws exactly on a stable-branch failure with a user and no first failed build, and otherwise agrees with the corrected one |
| Messages.FirstFailedBuildNullDereference | src/main/java/jenkins/plugins/slack/ActiveNotifier.java:306 | a project whose only build fails on "stable", started by alice, makes the code as written dereference null |
| Messages.MentionOnlyOnFailureWithUser | src/main/java/jenkins/plugins/slack/ActiveNotifier.java:300-302 | the notification is nonempty exactly for a FAILURE whose user id resolves, and then starts with that mention |
| Messages.StableTextOnlyOnStableBranch | src/main/java/jenkins/plugins/slack/ActiveNotifier.java:303-313 | the STABLE text follows the mention exactly when the branch is "stable" in any case; otherwise the reminder does |
| Messages.SecondMentionOnlyForOtherCulprit | src/main/java/jenkins/plugins/slack/ActiveNotifier.java:306-310 | on a stable failure something follows the STABLE text exactly when the first failed build's user is known and differs |
| Messages.HeaderIsEscaped | src/main/java/jenkins/plugins/slack/ActiveNotifier.java:281-290 | without a mention and a branch the header holds no `<` and no `>` |
| Messages.GetBrokenQa3TestBuilds | src/main/java/jenkins/plugins/slack/ActiveNotifier.java:417-432 | the filter loop returns exactly the filter specification's list |
| Messages.BrokenQa3Membership | src/main/java/jenkins/plugins/slack/ActiveNotifier.java:420-428 | a name is listed exactly when some non-experimental QA3 test job by that name has a failed last build |
| Messages.BrokenQa3PreservesOrder | src/main/java/jenkins/plugins/slack/ActiveNotifier.java:417-432 | the filter keeps the registry order: filtering a concatenation concatenates the filtered parts |
| Messages.Qa3AlertOnlyForCopyProjects | src/main/java/jenkins/plugins/slack/ActiveNotifier.java:219-222 | the alert appears exactly for a project named with "copy" (any case) while some QA3 job is broken, and starts with the channel mention |
| Messages.MessageBuilder.constructor | src/main/java/jenkins/plugins/slack/ActiveNotifier.java:196-201 | a new buffer holds exactly the header |
| Messages.MessageBuilder.WithQa3Check | src/main/java/jenkins/plugins/slack/ActiveNotifier.java:203-212 | a new buffer holds the QA3 alert (when asked for), then the header |
| Messages.MessageBuilder.AppendAlertIfAnyOfQa3TestsBuildIsFailing | src/main/java/jenkins/plugins/slack/ActiveNotifier.java:214-233 | the buffer grows by exactly the alert |
| Messages.MessageBuilder.AppendLines | src/main/java/jenkins/plugins/slack/ActiveNotifier.java:228-230 | the loop appends one line per broken job, in order |
| Messages.MessageBuilder.AppendStatusMessage | src/main/java/jenkins/plugins/slack/ActiveNotifier.java:235-238 | the buffer grows by the escaped status label |
| Messages.MessageBuilder.Append | src/main/java/jenkins/plugins/slack/ActiveNotifier.java:271-279 | appended text is escaped |
| Messages.MessageBuilder.StartMessage | src/main/java/jenkins/plugins/slack/ActiveNotifier.java:281-290 | the buffer grows by the header: notification, escaped project name, raw branch, " - ", escaped build name, a space |
| Messages.MessageBuilder.AppendBranch | src/main/java/jenkins/plugins/slack/ActiveNotifier.java:292-297 | the branch is appended unescaped, and only when there is one |
| Messages.MessageBuilder.AppendBrokenBuildNotification | src/main/java/jenkins/plugins/slack/ActiveNotifier.java:299-315 | the buffer grows by exactly the corrected broken-build notification |
| Messages.MessageBuilder.AppendBranchNotice | src/main/java/jenkins/plugins/slack/ActiveNotifier.java:303-313 | after the mention: the STABLE text and culprit mention on "stable", the reminder elsewhere |
| Messages.MessageBuilder.AppendCulpritMention | src/main/java/jenkins/plugins/slack/ActiveNotifier.java:306-310 | corrected code: the culprit of the first failed build is mentioned when known and different; with no first failed build nothing is appended, where the code throws |
| Messages.MessageBuilder.AppendOpenLink | src/main/java/jenkins/plugins/slack/ActiveNotifier.java:326-330 | the buffer grows by the link to server URL plus build URL |
| Messages.MessageBuilder.AppendDuration | src/main/java/jenkins/plugins/slack/ActiveNotifier.java:332-336 | the buffer grows by " after " and the duration |
| Messages.MessageBuilder.AppendTestSummary | src/main/java/jenkins/plugins/slack/ActiveNotifier.java:338-352 | passed = total - failed - skipped, then failed and skipped; "No Tests found." without results |
| Messages.MessageBuilder.AppendCustomMessage | src/main/java/jenkins/plugins/slack/ActiveNotifier.java:354-369 | a newline and the expanded template; an empty template appends "null" |
| Messages.MessageBuilder.AppendSendTo | src/main/java/jenkins/plugins/slack/ActiveNotifier.java:371-373 | the buffer grows by the `<@user>` mention, "null" for a null id |
| Messages.MessageBuilder.AppendSendToEverybody | src/main/java/jenkins/plugins/slack/ActiveNotifier.java:375-377 | the buffer grows by `<!channel>` |
| Notifier.BuildColor | src/main/java/jenkins/plugins/slack/ActiveNotifier.java:165-174 | good exactly for SUCCESS, danger exactly for FAILURE, warning for every other result, a null one included |
| Notifier.AffectedFiles | src/main/java/jenkins/plugins/slack/ActiveNotifier.java:108-114 | a file is in the set exactly when some entry touches it |
| Notifier.AuthorNames | src/main/java/jenkins/plugins/slack/ActiveNotifier.java:120-122 | one author name per entry, in entry order |
| Notifier.Changes | src/main/java/jenkins/plugins/slack/ActiveNotifier.java:101-118 | null exactly when no change set was computed or it has no entries |
| Notifier.CollectEntries | src/main/java/jenkins/plugins/slack/ActiveNotifier.java:107-114 | the first loop keeps every entry in order and collects exactly the affected-file set |
| Notifier.CollectAuthors | src/main/java/jenkins/plugins/slack/ActiveNotifier.java:119-122 | the second loop collects exactly the distinct authors |
| Notifier.GetChanges | src/main/java/jenkins/plugins/slack/ActiveNotifier.java:101-130 | the buffer-built change summary equals the change-summary specification |
| Notifier.ChangesReport | src/main/java/jenkins/plugins/slack/ActiveNotifier.java:123-129 | after the header comes one escaped sentence with the distinct authors and the distinct-file count, then the link |
| Notifier.ChangeAuthors | src/main/java/jenkins/plugins/slack/ActiveNotifier.java:119-125 | the named authors are exactly the entries' authors, none twice |
| Notifier.ChangesScenarioFiles | src/main/java/jenkins/plugins/slack/ActiveNotifier.java:108-113 | commits touching a,b and b,c count three files: the overlap once |
| Notifier.ChangesScenarioAuthors | src/main/java/jenkins/plugins/slack/ActiveNotifier.java:119-122 | two commits by one author name that author once |
| Notifier.CommitLines | src/main/java/jenkins/plugins/slack/ActiveNotifier.java:153-158 | one "msg [author]" line per entry, in entry order |
| Notifier.CommitLinesOnce | src/main/java/jenkins/plugins/slack/ActiveNotifier.java:152-161 | the joined lines are exactly the entries' lines, none twice |
| Notifier.CommitSource | src/main/java/jenkins/plugins/slack/ActiveNotifier.java:132-151 | a build with entries is its own source; without entries and upstream cause there is none; any source found has entries |
| Notifier.CommitList | src/main/java/jenkins/plugins/slack/ActiveNotifier.java:132-163 | with entries: header, escaped "Changes:\n- ", distinct lines joined; without entries and upstream cause: exactly "No Changes.", no header |
| Notifier.FindCommitSource | src/main/java/jenkins/plugins/slack/ActiveNotifier.java:140-151 | the recursion into the upstream build finds exactly the specified source or fault |
| Notifier.GetCommitList | src/main/java/jenkins/plugins/slack/ActiveNotifier.java:132-163 | the computed commit list or fault equals the commit-list specification |
| Notifier.CollectCommitLines | src/main/java/jenkins/plugins/slack/ActiveNotifier.java:152-158 | the loop collects exactly the distinct commit lines |
| Notifier.GetCommitSummary | src/main/java/jenkins/plugins/slack/ActiveNotifier.java:159-162 | the buffer-built commit text equals the commit-summary specification |
| Notifier.CommitListFollowsUpstream | src/main/java/jenkins/plugins/slack/ActiveNotifier.java:141-150 | a build without entries whose upstream project and build exist reports exactly what the upstream build reports |
| Notifier.CommitSourceFuelMonotone | src/main/java/jenkins/plugins/slack/ActiveNotifier.java:150 | once the upstream walk succeeds, more recursion depth finds the same source |
| Notifier.CommitListFuelMonotone | src/main/java/jenkins/plugins/slack/ActiveNotifier.java:150 | once the commit list resolves, more recursion depth gives the same text |
| Notifier.GetBuildStatusMessage | src/main/java/jenkins/plugins/slack/ActiveNotifier.java:176-188 | header, escaped status label, duration, link, then the test summary and custom message only when asked for |
| Notifier.SkipAborted | src/main/java/jenkins/plugins/slack/ActiveNotifier.java:504-506 | the walk stops at a completed non-ABORTED build or -1, and every build it passes is building or ABORTED |
| Notifier.PreviousNonAbortedIndex | src/main/java/jenkins/plugins/slack/ActiveNotifier.java:503-507 | the latest completed non-ABORTED build before the last build, or -1 |
| Notifier.FindPreviousResult | src/main/java/jenkins/plugins/slack/ActiveNotifier.java:502-507 | the do-while loop yields that build's result, SUCCESS when none qualifies |
| Notifier.ShouldNotify | src/main/java/jenkins/plugins/slack/ActiveNotifier.java:508-517 | the six-clause condition result by result: ABORTED, FAILURE (repeat rule), NOT_BUILT, SUCCESS (back-to-normal or success), UNSTABLE, never for a null result |
| Notifier.PublishCompletion | src/main/java/jenkins/plugins/slack/ActiveNotifier.java:518-523 | the posts equal the completion-posts specification |
| Notifier.RunCompletedTask | src/main/java/jenkins/plugins/slack/ActiveNotifier.java:496-523 | the completed task's posts equal the completed-run specification, whose header is the corrected one |
| Notifier.CompletedPostsWhen | src/main/java/jenkins/plugins/slack/ActiveNotifier.java:496-523 | with the corrected header: nothing is posted exactly when there is no job property or the condition fails, and a throw comes only from the commit list |
| Notifier.CompletionPostsOrder | src/main/java/jenkins/plugins/slack/ActiveNotifier.java:518-523 | status message first; commit list second only with showCommitList and a resolving list; both in getBuildColor |
| Notifier.RepeatedFailureIsSilent | src/main/java/jenkins/plugins/slack/ActiveNotifier.java:509-511 | FAILURE after FAILURE without notifyRepeatedFailure posts nothing |
| Notifier.AbortedBuildIsSkipped | src/main/java/jenkins/plugins/slack/ActiveNotifier.java:503-511 | history SUCCESS, ABORTED, FAILURE: the abort is skipped, and the failure is posted in "danger" |
| Notifier.CompletedRunUsesCorrectedHeader | src/main/java/jenkins/plugins/slack/ActiveNotifier.java:306 | on a sole build failing on "stable", started by alice, the header as written throws, while the modelled completed task posts |
| Notifier.StartColorCases | src/main/java/jenkins/plugins/slack/ActiveNotifier.java:91-99 | "good" exactly with no previous completed build or a successful one; "danger" exactly after a failure; an abort is not skipped |
| Notifier.GetCauseMessage | src/main/java/jenkins/plugins/slack/ActiveNotifier.java:464-466 | QA3 alert, header, escaped cause description, link |
| Notifier.GetStartSummary | src/main/java/jenkins/plugins/slack/ActiveNotifier.java:470-475 | the change summary, or the status message without test summary |
| Notifier.RunStartedTask | src/main/java/jenkins/plugins/slack/ActiveNotifier.java:451-475 | the started task's posts equal the started-run specification, whose header is the corrected one |
| Notifier.StartedPosts | src/main/java/jenkins/plugins/slack/ActiveNotifier.java:459-475 | one or two posts, two exactly when the cause message is sent, the cause message first and the summary last |
| Notifier.StartedPostColors | src/main/java/jenkins/plugins/slack/ActiveNotifier.java:91-99 | every post of the started task has the start colour |
| Notifier.StartSummaryPrefersChanges | src/main/java/jenkins/plugins/slack/ActiveNotifier.java:470-472 | the summary is the change summary whenever there is one |
| Notifier.ScmTriggeredStartPostsOnce | src/main/java/jenkins/plugins/slack/ActiveNotifier.java:461-463 | a build with an SCM trigger cause gets no cause message: one post |

## Left out

- The thread pool and `started`/`completed` (lines 48-63) are concurrency and
  are not modelled. A full queue makes `execute` throw; tasks are not dropped.
- `getSlack` and `publish` (lines 71-89) are the transport. Publishing is
  appending a post to the run.
- Reading the environment and `EnvVars.expand` are host calls. The environment
  is `Build.environment`, with None when reading it throws. The expanded
  custom message and the cause's short description are inputs on `Build`.
- Timing and logging have no behavioural content and are left out.
- `deleted` and `finalized` are no-ops and are left out.
- The `Jenkins`/`Hudson` singletons become the `Site` value: a registry of
  projects, each with its build history.
- Notifier.CommitSource: the code recurses into upstream builds with no bound.
  The model carries a `fuel` depth; running out stands for stack overflow and
  is a `RecursionTooDeep` crash.
- Text.Dedup: a `HashSet` iterates in no specified order. The model fixes
  first-occurrence order, so the joined author and commit lists pin an order
  the code does not promise. Their contents and distinctness are what is
  proved.
- Notifier.AffectedFiles: affected files are compared by path. The code's
  `HashSet<AffectedFile>` relies on the SCM plugin's own equality.
- Text.ToLower: case folding covers ASCII letters only. Java's
  `toLowerCase` and `equalsIgnoreCase` handle all of Unicode.
- Causes.UserIdCauseOf: at the top level the walk starts from the FIRST
  upstream cause. At each nested level it continues with the LAST one, because
  the loop variable is overwritten. The model follows the code.
- Messages.StatusMessage: the status label compares with the immediate
  previous build, ABORTED or not. The completion decision skips aborts. The two
  differ and the model keeps both as written.
- Messages.MessageBuilder.AppendCulpritMention: models the corrected line 306.
  With no build after the last successful one it appends nothing, where the
  code throws. Every `MessageBuilder` in the model therefore builds the
  corrected header; the tasks below inherit it.
- Notifier.RunCompletedTask: on a FAILURE on branch "stable" whose user
  resolves, in a project with no build after its last successful one (e.g. a
  sole failing build), the code throws in `getBuildStatusMessage` before
  publishing; the model posts the status message (see
  `Notifier.CompletedRunUsesCorrectedHeader`). The same holds for the commit
  list of an upstream build in that state.
- Notifier.CompletedPostsWhen: "a throw comes only from the commit list" holds
  for the corrected header; the code also throws from the header on the input
  above.
- Notifier.RunStartedTask: on the same input the code throws in the first
  `MessageBuilder` it creates (cause message, change summary or status
  message), posting nothing; the model posts.
- Messages.MessageBuilder.AppendTestSummary: the test counts are unbounded
  integers, so Java's 32-bit wrap-around in `total - failed - skipped` is not
  modelled.
- Notifier.StartedRun: without a job property `StartedTask.run` throws in
  `getSlack` (or at `jobProperty.includeCustomMessage()`) before posting. This is
  modelled as a crash with no posts, not as "nothing sent".

## Findings

| source | as written | input that shows it | evidently intended | confidence | as-written member | corrected member |
|---|---|---|---|---|---|---|
| src/main/java/jenkins/plugins/slack/ActiveNotifier.java:306 | `getUserId(findFirstFailedBuild())` passes the result straight on, and `getUserId` dereferences it; `findFirstFailedBuild` returns null when the project has no successful build or its last build is the successful one | a project whose only build FAILS on branch "stable", started by user alice: no successful build, so null is dereferenced and the header is never built | no first failed build means no second mention: the header is the mention of alice and the STABLE text | not executed | Messages.FirstFailedBuildNullDereference | Messages.SecondMentionOnlyForOtherCulprit |
