# Eiksy: authorization, editing, connections and storage, proved

Eiksy is an operations workstation: SSH and SFTP sessions, an AI assistant that may run commands on them, and a
store that keeps profiles, secrets and chat history. This project models the backend code that decides and remembers,
in Dafny, and proves what that code promises over every input, every run and every interleaving.

The largest part is the authorization of AI-initiated commands. `CommandPolicy.dfy` models policy evaluation and
normalisation and `PolicyTheorems.dfy` what they promise. `ToolCalling.dfy` gives every service call as a transition
on values; an `Environment` answers for the model, the hosts and the store, so a statement for all environments is a
statement for everything the outside may do. `Service.dfy` is the service itself, fields updated step by step, with
every method proved to perform exactly the transition of the same operation. `LoopFacts.dfy` says what the
tool-calling loop may change; `RunSafety.dfy`, `AtMostOnce.dfy` and `Conversation.dfy` prove whole-run safety,
at-most-once effects and well-formed conversations; `ToolResults.dfy` and `Answers.dfy` prove what each tool call does
exactly and what the model is told of it, `Approvals.dfy` and `PolicyUpdates.dfy` what the user's choices change afterwards.
`AgentEvents.dfy` proves the event stream of an agent run complete and says exactly what the terminal pane shows of it.

The others stand on their own. `LineEditor.dfy`: a line buffer with a (row, column) cursor refines a flat text with
one offset. `SshManager.dfy`: the connection manager as interleaved critical sections. `RuntimeTabs.dfy`: two stores,
one ordered list of tabs. `SecureStorage.dfy`, `SetupRace.dfy` and `ChatStore.dfy`: sealed secrets, first-time set-ups
that interleave, and the chat history kept sealed across lock and unlock, and in `ChatRestart.dfy` across restarts. `PortForward.dfy`: printed forwarding rules
against their parser. `ProfileIds.dfy`: fresh identifiers by pigeonhole. `CloudAuth.dfy`: browser authorization under
any order of events. `Text.dfy` and `Separated.dfy` hold trimming, decimal numerals, splitting and joining.

A class stands where the source updates an object: its methods are proved against functions on values, and the
theorems are about those functions.

## What the code does not do

Each of these is a lemma about the model, with the exact condition.

* An approval is stored as a pattern. Approving "this exact command" covers other commands exactly when the command
  ends in `*` (`PolicyTheorems.GrantIsExactIffNoStar`).
* An approved SFTP write is carried out exactly when the tool call itself named the session; a call that relied on
  the active session loses its continuation and writes nothing (`AtMostOnce.WriteNeedsNamedSession`).
* An approved command can run without being recorded: exactly when its request has no continuation and the store cannot
  be written. The request then stays approvable and the same approval runs it again (`AtMostOnce.UseRetires`,
  `AtMostOnce.UnsavedApprovalRunsAgain`). Over any run a request is used exactly once for each such execution and once
  more if it also ran with a record (`AtMostOnce.UsesOfARun`), so at most once exactly if it never ran unrecorded, or did
  once and never ran with a record (`AtMostOnce.AtMostOnePerRequest`). A request approved with its continuation runs at
  most once whatever fails (`AtMostOnce.AtMostOnceWhileHeld`).
* An SFTP write that was approved and carried out stays in the list of requests. A resolution takes its request off the
  list exactly when it can be saved, its mode is known and, for an approval, the request is no write for an open tab, its
  tool is enabled and its continuation matches (`PolicyUpdates.LeavesListExactly`,
  `PolicyUpdates.CarriedOutWriteStaysListed`).
* An agent run that stops for an approval has no reply of its own, and shows the last answer of an earlier run again if
  there is one, exactly then (`AgentEvents.RepeatsExactlyWhenSuspended`, `AgentEvents.EarlierAnswerIsRepeated`).
* Locking the disk store drops pending approvals exactly when no chat session is listed and the settings can be
  written; otherwise its own update is rejected because the store is already locked
  (`ChatStore.LockDropsApprovalsExactly`).
* Of the chat, locking empties only the live messages: for every listed session, selecting it while locked gives its
  conversation back without a password (`ChatStore.LockedSelectGivesBack`).
* Closing a tab in the background can move the active one: it stays active exactly when it is the neighbour that takes
  over (`RuntimeTabs.BackgroundCloseKeepsActiveExactly`, `RuntimeTabs.BackgroundCloseMovesActive`).
* Two overlapping Connects on one tab lose a connection that nothing ever closes
  (`SshManager.OverlappingConnectsLeak`, `SshManager.LeakIsForever`); a step leaks exactly when it installs over a
  mapped connection (`SshManager.LeaksExactlyWhenOverwriting`).
* A rejected update changes nothing in memory, yet the secret store then holds the rejected history exactly when the
  update named sessions or changed messages, the key was in memory with a record in the keyring, and both accesses of
  storing it succeeded, so that only writing the settings file failed (`ChatStore.FailedUpdateRollsBack`).
* An unlock, of a first set-up or a later one, keeps the store's lock forever exactly when the password opens the vault
  and the stored history is found but cannot be read or decoded, or nothing is read and a waiting older history cannot be
  stored and saved (`ChatStore.UnlockSticksExactly`, `ChatStore.UnlocksThatStick`, `ChatStore.FirstSetupSticksExactly`).
  A password that opens nothing leaves the lock free (`ChatStore.RefusedPasswordNeverSticks`).
* An unlock that succeeds need not have restored the conversation: it has exactly when the look for the history and the
  keyring's status are answered, up to the named cases of empty and older conversations
  (`ChatStore.UnlockRestoresExactly`, `ChatStore.MissedRestore`). The next saved update then overwrites it
  (`ChatStore.MissedRestoreLosesTheConversation`).
* A session created or forked while locked, under a fresh identifier, is active after an unlock that succeeds and then has
  no entry exactly when the unlock saw the stored history and no older one waited; when it did not see the history, the
  session keeps the entry it had in memory (`ChatStore.CreatedWhileLockedDangles`, for other identifiers
  `ChatStore.StartedWhileLockedMirrorsExactly`). `ChatStore.UnlockedMirrorsExactly` gives the condition for every unlock
  that succeeds.
* An unencrypted history of an older version waits in the settings file for the first unlock, but every write of the
  settings drops it from there: it is there at the next start exactly if no call has succeeded in between
  (`ChatRestart.OlderHistoryWaitsExactly`, `ChatRestart.SelectLosesOlderHistory`).
* First-time set-ups of the secret store that interleave can leave a key in memory that the keyring does not hold. In
  every run memory and keyring agree exactly when the set-up that wrote the keyring last is the one that kept its key
  last (`SetupRace.AgreeExactlyWhenWriterKeptLast`), a run of two shows that they can differ
  (`SetupRace.OverlappingSetupsDisagree`), and what is stored is found after the next lock and unlock exactly when they
  agree (`SetupRace.SecretsSurviveExactly`).
* Forwards to a host with a colon (an IPv6 literal) or a comma do not survive printing and parsing
  (`PortForward.OptionRoundTrip`).
* Two forwards with the same local port, as `80,80` gives, open nothing: with hosts that have no colon or comma, all
  forwards of the rules open exactly when their ports are free and none is named twice (`PortForward.RulesOpenExactly`).
* A completed browser authorization need not stay completed: over every run it does exactly when neither its timeout
  nor its server's failure arrives while it is the current one (`CloudAuth.CompletedUntilOverridden`,
  `CloudAuth.CompletionIsOverridden`).

## Model

| member | source | states |
|---|---|---|
| `CommandPolicy.NormalizeCommandRules` | internal/app/command_policy.go:63-80 | the loop returns the usable rules, cleaned, in order |
| `CommandPolicy.EvaluateCommandPolicy` | internal/app/command_policy.go:128-175 | the best-so-far loop computes the order-free verdict: deny if a guard fails or any matching rule denies, else ask if nothing matches or a most specific match asks, else allow; the reason is that of the first denying rule, or of the last strongest rule that carries the decision |
| `CommandPolicy.NormalizeTools` | internal/app/service_command_policy.go:159-194 | defaults overlaid by the policy's entries: one tool per identifier, in first-seen order, each with its last entry's contents |
| `CommandPolicy.NormalizeCommandPolicy` | internal/app/service_command_policy.go:159-217 | normalises tools and requests and keeps rules |
| `CommandPolicy.CommandToolEnabled` | internal/app/service_command_policy.go:219-231 | true exactly when the last entry with that identifier, or else the default one, is enabled |
| `CommandPolicy.ToolEnabledByOverlay` | internal/app/service_command_policy.go:159-231 | "last entry, else default, else false" is what the defaults overlaid by the policy's entries say |
| `PolicyTheorems.NormalizedRulesMember` | internal/app/command_policy.go:63-80 | a rule is in the normalised list exactly when it is the cleaned form of a usable one |
| `PolicyTheorems.NormalizedRulesIdempotent` | internal/app/command_policy.go:63-80 | normalising rules twice is normalising once |
| `PolicyTheorems.DecisionIgnoresOrder` | internal/app/command_policy.go:142-174 | reordering or repeating rules changes no decision |
| `PolicyTheorems.DenyIsAbsorbing` | internal/app/command_policy.go:160-162 | adding rules never overturns a denial, and adding rules that do not deny never creates one |
| `PolicyTheorems.LiteralPatternMatchesItself` | internal/app/command_policy.go:82-101 | a pattern without a trailing star matches exactly its own text |
| `PolicyTheorems.GrantChangesNothingElse` | internal/app/service_command_policy.go:127-136 | approving a command without a trailing star changes no decision about another tool, session or command |
| `PolicyTheorems.GrantAllowsItsOwnCommand` | internal/app/service_command_policy.go:127-136 | on its own triple a grant gives Allow exactly when no guard fails, no rule denies and no strongest rule at least as specific asks |
| `PolicyTheorems.SessionGrantIsStrongest` | internal/app/command_policy.go:112-126 | no rule is more specific than a session grant of a command without a trailing star |
| `PolicyTheorems.GrantIsExactIffNoStar` | internal/app/service_command_policy.go:129-134 | an approval covers only its own command exactly when that command does not end in a star |
| `PolicyTheorems.NormalizedToolsFacts` | internal/app/service_command_policy.go:159-194 | feeding a normalised tool list through again finds the same identifiers and the same last entries |
| `PolicyTheorems.NormalizedToolsIdempotent` | internal/app/service_command_policy.go:159-194 | normalising tools twice is normalising once, keeps every default tool and leaves identifiers unique |
| `PolicyTheorems.NormalizingKeepsEnabledTools` | internal/app/service_command_policy.go:219-231 | normalising a policy enables and disables no tool |
| `PolicyTheorems.NormalizedToolsAreNamed` | internal/app/service_command_policy.go:159-194 | every normalised tool has a name and an identifier that is its own key |
| `PolicyTheorems.NormalizingKeepsRules` | internal/app/service_command_policy.go:159-217 | normalising keeps every rule as it is and trims the path of the local documents |
| `PolicyTheorems.DecideNormalized` | internal/app/service_command_policy.go:159-217 | normalising a policy changes no decision |
| `PolicyTheorems.StarPattern` | internal/app/command_policy.go:82-101 | `base*` matches exactly the commands that start with the base |
| `PolicyTheorems.SpacedStarPattern` | internal/app/command_policy.go:95-98 | `base *`, and any blanks that end in a space or a tab before the star, matches exactly the base alone and what starts with base and blanks |
| `PolicyTheorems.OneRuleDecides` | internal/app/command_policy.go:128-175 | a policy with one rule gives its action to the commands in scope that it matches and asks about the rest |
| `PolicyTheorems.StarRuleDecides` | internal/app/command_policy.go:82-175 | with one rule `base *` that is the base with or without arguments, and nothing else |
| `PolicyTheorems.DenyRuleIsFinal` | internal/app/command_policy.go:160-162 | a rule that denies `base *` denies the base with or without arguments, whatever other rules say |
| `PolicyTheorems.AllowedBySomeRule` | internal/app/command_policy.go:128-175 | nothing is allowed but by some allow rule whose scope and pattern take in the command |
| `PolicyTheorems.MoreSpecificExactly` | internal/app/command_policy.go:112-126 | one rule is more specific than another exactly when it fixes more of session and full command, or as many and wins the tie: naming the tool, or fixing the session rather than the command |
| `PolicyTheorems.DecisionIgnoresCase` | internal/app/command_policy.go:63-80 | the case of a tool identifier changes no decision |
| `LoopFacts.NormalizedIdempotent` | internal/app/service_command_policy.go:159-217 | normalising a policy twice is normalising once, requests included |
| `LoopFacts.AllowedHasNoShellSyntax` | internal/app/command_policy.go:103-110 | an allowed shell command contains none of the eleven banned tokens |
| `LoopFacts.NoBannedToken` | internal/app/command_policy.go:103-110 | no banned token stands anywhere in the text of a shell command that is not denied |
| `LoopFacts.SuspendProgress` | internal/app/native_tool_calling.go:352-385 | a suspension lists exactly one new request under a fresh identifier with a matching continuation, or changes nothing if it could not be saved |
| `LoopFacts.DiagnosticsAllOrNothing` | internal/app/native_diagnostics.go:68-93 | diagnostics hand no command to a host unless all six are allowed, and then exactly the six in order on a connected session |
| `LoopFacts.DispatchIsOK` | internal/app/native_tool_calling.go:277-390 | a dispatch has only allowed automatic effects, paths looked at over SFTP included, and raises one request exactly when it suspends |
| `LoopFacts.LooksInActiveSession` | internal/app/native_tool_calling.go:393-417 | a stat, list or read reaches SFTP exactly when SFTP is enabled, the arguments are well formed with a path, the conversation has a session on a connected SSH tab and the call names that one or none |
| `LoopFacts.TurnsLookIn` | internal/app/native_tool_calling.go:393-508 | a whole loop looks at remote paths in its conversation's session and in no other |
| `LoopFacts.TurnsProgress` | internal/app/native_tool_calling.go:72-139 | a whole loop has only allowed automatic effects and raises at most one request |
| `ToolResults.ConnectedExactly` | internal/app/ssh_command_result.go:19-49 | a session is connected exactly when the first tab with its identifier is a connected SSH session, whatever the case of the words |
| `ToolResults.ExecRunsExactly` | internal/app/native_tool_calling.go:296-351 | ssh.exec hands exactly its command to the host, exactly when the arguments are well formed, the session is the conversation's or the named one, the policy allows and the session is connected; the answer is the host's |
| `ToolResults.ExecAsksExactly` | internal/app/native_tool_calling.go:352-385 | it asks the user exactly when the policy asks and the request can be saved; request and continuation are given field by field |
| `ToolResults.WriteAsksExactly` | internal/app/native_tool_calling.go:229-260 | sftp.write never writes by itself and asks exactly when tool, arguments, session, size and tab are in order and the request can be saved, showing the path |
| `ToolResults.LookAnswersExactly` | internal/app/native_tool_calling.go:393-508 | stat, list and read reach SFTP for that path exactly when everything is in order, and answer what was found there |
| `ToolResults.DiagnosticsRunExactly` | internal/app/native_diagnostics.go:29-109 | diagnostics run exactly when a summary of a connected session is asked for, the shell tool is enabled and all six checks are allowed; then the six run in order and the answer holds the six results in that order |
| `ToolResults.DiagnosticsNameTheBlock` | internal/app/native_diagnostics.go:68-80 | diagnostics that are not allowed run nothing and name the first check the policy stops at, and how |
| `ToolResults.ExecRefusesExactly` | internal/app/native_tool_calling.go:301-332 | when ssh.exec is refused and for what: arguments, missing fields, another session, the policy |
| `ToolResults.UnconnectedCommandDoesNotRun` | internal/app/ssh_command_result.go:19-49 | an allowed command whose session is not connected changes nothing and the model is told that it did not run |
| `ToolResults.WriteRefusesExactly` | internal/app/native_tool_calling.go:229-249 | an sftp.write that does not ask is refused for the first check that fails |
| `ToolResults.LookRefusesExactly` | internal/app/native_tool_calling.go:393-417 | so is a stat, list or read that does not reach SFTP |
| `ToolResults.OtherCallsDoNothing` | internal/app/native_tool_calling.go:277-298 | a call of any other tool changes nothing and is told so; a call that is no function call fails the loop |
| `ToolResults.BytesOfText` | internal/app/native_tool_calling.go:229-246 | the byte length is the character count exactly for ASCII text, and at most four times it |
| `RunSafety.ResumeWarranted` | internal/app/service_command_policy.go:66-148 | what a resumed loop runs is allowed by the policy then in force |
| `RunSafety.ApproveCommandWarranted` | internal/app/service_command_policy.go:117-157 | an approved command runs only as the listed request names it, with its tool enabled, its tab present and connected, and not denied by policy |
| `RunSafety.ApproveWriteWarranted` | internal/app/service_command_policy.go:90-116 | an approved write happens only for its own matching continuation, with that call's path and content, on a connected session |
| `RunSafety.StepJustified` | internal/app/service_command_policy.go:41-157 | every effect of every service call was allowed by the policy in force or approved as a listed request |
| `RunSafety.StepLooksIn` | internal/app/native_tool_calling.go:393-508 | so does every service call, resumed conversations included |
| `RunSafety.EveryRunIsSafe` | internal/app/native_tool_calling.go:72-139 | along every run of service calls, for every behaviour of the outside, every effect is justified and every path looked at is in the session of its conversation |
| `AtMostOnce.ResolveConsumes` | internal/app/service_command_policy.go:52-157 | a resolution that had an effect retires its request if the request was held or the store could be written; a denial that could be saved retires it whatever the resumed conversation replies |
| `AtMostOnce.StepKeeps` | internal/app/service_command_policy.go:41-157 | every call keeps listed identifiers distinct and issued, and never revives a retired one |
| `AtMostOnce.StepUses` | internal/app/service_command_policy.go:90-157 | a call uses an identifier at most once, only while it is live and only when approving it |
| `AtMostOnce.RetiredNeverRuns` | internal/app/service_command_policy.go:52-157 | over any run a retired request never reaches a host |
| `AtMostOnce.ResultNotSavedExactly` | internal/app/service_command_policy.go:137-156 | an approval not denied by policy reports an unsaved result exactly when the request is not held and the store cannot be written |
| `AtMostOnce.UsesExactly` | internal/app/service_command_policy.go:41-157 | a call uses an identifier exactly when it approves it and the request runs: unheld and unrecorded, or with its record saved and, if held, a continuation that matches; for writes the saved call must be ready and name the session |
| `AtMostOnce.UsesOfARun` | internal/app/service_command_policy.go:127-157 | over any run, whatever fails, a request reaches a host exactly once for each unrecorded execution and once more if some call executed and recorded it |
| `AtMostOnce.AtMostOnePerRequest` | internal/app/service_command_policy.go:127-157 | over any run a request reaches a host at most once exactly if it was never executed unrecorded, or once and never recorded |
| `AtMostOnce.AtMostOnceWhileHeld` | internal/app/service_command_policy.go:137-148 | a request approved with its continuation reaches a host at most once, whatever fails |
| `AtMostOnce.HeldApprovalIsFinal` | internal/app/service_command_policy.go:137-148 | after an approval with its continuation has had an effect, nothing runs for that request over any later run |
| `AtMostOnce.UseRetires` | internal/app/service_command_policy.go:137-156 | a used request is retired exactly when it was held or the store could be written, and is otherwise still approvable |
| `AtMostOnce.DeniedNeverRuns` | internal/app/service_command_policy.go:54-73 | a listed request whose denial could be saved never executes later, whatever the denial replied |
| `AtMostOnce.UnsavedApprovalRunsAgain` | internal/app/service_command_policy.go:150-155 | without a saved result the request stays listed and may run again |
| `AtMostOnce.EveryEffectIsAuthorized` | internal/app/service_command_policy.go:41-157 | over any run each effect ran automatically or is what a raised request showed and the user approved |
| `AtMostOnce.EveryRunFromTheStart` | internal/app/service_command_policy.go:41-157 | the same from a service that has raised nothing, together with the exact number of effects of every request |
| `AtMostOnce.WriteNeedsNamedSession` | internal/app/service_command_policy.go:101-105 | an approved write is carried out exactly when the call named the session |
| `PolicyUpdates.RequestsOfOne` | internal/app/service_command_policy.go:196-217 | a request is listed with every field cleaned unless its command or tool is blank |
| `PolicyUpdates.PolicyIsStored` | internal/app/service_command_policy.go:32-39 | setting a policy succeeds exactly when the store can be written; then the service decides, enables and lists by it, and otherwise the AI state is as before |
| `PolicyUpdates.PolicyGoverns` | internal/app/service_command_policy.go:32-39 | over every run that resolves nothing and sets no other policy, every effect is what the policy at its start allows |
| `PolicyUpdates.SetPolicyGoverns` | internal/app/service_command_policy.go:32-39 | so whatever the service does by itself after a policy was set is what that very policy allows |
| `PolicyUpdates.SetPolicyBindsApprovals` | internal/app/service_command_policy.go:117-136 | no approval then carries out a command the policy just set denies, or one whose tool it disables |
| `PolicyUpdates.ClearTells` | internal/app/service_command_policy.go:14-30 | clearing succeeds exactly when the store can be written; conversation, requests and continuation go, providers, tools and decisions stay |
| `PolicyUpdates.LeavesListExactly` | internal/app/service_command_policy.go:41-157 | a resolution takes its request off the list exactly when it can be saved, its mode is known and, for an approval, the request is no write for an open tab, its tool is enabled and its continuation matches; all other requests stay |
| `PolicyUpdates.CarriedOutWriteStaysListed` | internal/app/service_command_policy.go:90-116 | a write that has been carried out is still listed |
| `PolicyUpdates.ResolutionIsReported` | internal/app/service_command_policy.go:67-156 | without a continuation a saved denial and a saved execution each add one assistant message, the denial or the host's answer |
| `PolicyUpdates.DenialByPolicyIsReported` | internal/app/service_command_policy.go:117-126 | an approval the policy denies carries nothing out, and the chat says so if it can be saved |
| `PolicyUpdates.HeldEffectIsOfItsCall` | internal/app/service_command_policy.go:81-89 | a held approval has an effect only if the held call is for the request's tool and session |
| `PolicyUpdates.ResolutionRefusesExactly` | internal/app/service_command_policy.go:41-74 | a resolution is refused outright exactly when it finds no listed request or its mode is unknown |
| `PolicyUpdates.ApprovalRefusesExactly` | internal/app/service_command_policy.go:75-96 | an approval is refused exactly for a disabled tool, a missing tab, another call's continuation, or a write without its own |
| `PolicyUpdates.WriteRefusesExactly` | internal/app/service_command_policy.go:97-107 | a consumed write answers for its saved arguments, its size or its connection exactly if that is what is wrong |
| `Conversation.BatchSpeaks` | internal/app/native_tool_calling.go:99-135 | tool answers follow an assistant batch in order; a suspension saves a conversation that awaits exactly the suspended call |
| `Conversation.ResumedIsWellFormed` | internal/app/native_tool_calling.go:541-544 | resuming appends the suspended call's answer at the one position where it is due |
| `Conversation.TurnsSpeak` | internal/app/native_tool_calling.go:72-139 | a loop sends only well-formed lists, at most four of them |
| `Conversation.StepSpeaks` | internal/app/service_command_policy.go:41-157 | every service call sends at most four lists, all well formed |
| `Conversation.EveryRunSpeaksWell` | internal/app/native_tool_calling.go:519-547 | along every run every list sent is well formed; with one-call batches every call has its answer |
| `Conversation.EveryRunSpeaksFromTheStart` | internal/app/native_tool_calling.go:519-547 | from a service that has sent nothing, every list of every run is well formed, four at most for each call, and a saved continuation awaits its own answer |
| `Answers.BatchTellsTheModel` | internal/app/native_tool_calling.go:99-135 | each call of a batch is answered under its identifier with the very result its view in the pane shows |
| `Answers.TurnsConverse` | internal/app/native_tool_calling.go:72-139 | a loop sends the opening list first, each later one extends the one before by an assistant turn and its answers, and a reply is what the model said last, trimmed |
| `Answers.TurnsSave` | internal/app/native_tool_calling.go:352-385 | a loop that suspends saves its own conversation, provider and words |
| `Answers.SuspendedSendIsSaved` | internal/app/native_tool_calling.go:352-385 | a message that raises a request leaves a continuation with the provider in use, the message and all said before it |
| `Answers.FourTurnsAtMost` | internal/app/native_tool_calling.go:75-139 | a model that always calls an unknown tool is sent four lists and then the loop fails |
| `Answers.SendTells` | internal/app/service_ai.go:570-591 | a conversation starts exactly when the message is not blank and a provider can be used; it opens with prompt, transcript and message, and saves nothing or the message and the model's own words |
| `Answers.AgentTells` | internal/app/ai_agent.go:32-74 | the same for an agent run |
| `Answers.FirstChosenIsUsed` | internal/app/service_ai.go:592-612 | the provider used is the first that is selected and configured |
| `Answers.NoToolsNoEffects` | internal/app/native_tool_calling.go:60-98 | with shell and SFTP disabled a conversation reaches no host and raises no request, whatever the model asks for |
| `Answers.ResumeTells` | internal/app/native_tool_calling.go:519-547 | resuming sends the saved conversation, prompt renewed and answer appended, exactly when its provider is listed and usable and the store can be written |
| `Answers.ResumeReplies` | internal/app/native_tool_calling.go:519-547 | what a resumed conversation replies: done only if it saved a reply or raised a request, failed only if it did neither |
| `Answers.DenialIsAnswered` | internal/app/service_command_policy.go:54-66 | the model is told of a saved denial |
| `Answers.ApprovedCommandIsAnswered` | internal/app/service_command_policy.go:137-148 | the model is told what the host said to the approved command |
| `Answers.ApprovedWriteIsAnswered` | internal/app/service_command_policy.go:90-116 | the model is told session, path and success of the approved write |
| `Approvals.ApprovalIsExact` | internal/app/service_command_policy.go:127-136 | the policy kept after approving a listed request decides differently only about that tool and command (and session, for a session approval), unless the command ends in a star |
| `Approvals.NowGrantsNothing` | internal/app/service_command_policy.go:128-136 | approving only for now changes no decision |
| `Approvals.ApprovalAllowsItself` | internal/app/service_command_policy.go:117-136 | the approved command is then allowed exactly when no strongest rule at least as specific asks |
| `Approvals.ApprovalTakesEffect` | internal/app/service_command_policy.go:136-156 | if the store can be written, the service decides by the policy after the approval, whatever the resumed conversation does and replies |
| `Approvals.ClearedNeverRuns` | internal/app/service_command_policy.go:14-30 | after clearing the chat no request of the earlier conversation ever runs |
| `Approvals.LockedNeverRuns` | internal/app/service.go:197-206 | locking empties the live messages, and discards the requests exactly if the update of the stored state goes through |
| `Approvals.PromptNamesEnabledTools` | internal/app/native_tool_calling.go:586-598 | the system prompt names exactly the enabled tools |
| `AgentEvents.CompleteStream` | internal/app/ai_agent.go:32-88 | the stream grammar: one terminal event, last, and no tool event after an approval request |
| `AgentEvents.BatchIgnoresEvents` | internal/app/native_tool_calling.go:100-135 | emitting events changes neither the state nor the conversation nor the outcome |
| `AgentEvents.BatchStreams` | internal/app/native_tool_calling.go:100-135 | one bracketed tool group per dispatched call, each view with that call's own output |
| `AgentEvents.TurnsStream` | internal/app/native_tool_calling.go:72-139 | the same over all turns; after a reply every view is finished |
| `AgentEvents.AgentRunIsShown` | internal/app/ai_agent.go:32-88 | every run sends a complete stream, and a pane that handles it gains one view per dispatched call, in order, all finished except possibly the last |
| `AgentEvents.EveryViewIsNamed` | internal/tui/tui.go:899-937 | every view a run adds is named after its tool, or "unknown" |
| `AgentEvents.SuspensionShows` | internal/app/native_tool_calling.go:111-128 | the approval event of a suspension carries exactly the request just raised |
| `AgentEvents.ApprovalBoxTells` | internal/tui/tui.go:923-927 | after a run the pane's approval is the request this run raised, or what it was before if it raised none |
| `AgentEvents.AgentTextTells` | internal/app/ai_agent.go:67-85 | a run that replies saves question and reply and the pane gains that reply; a failed one saves nothing and the pane gains one error or cancellation; a suspended one saves nothing and repeats the last earlier answer |
| `AgentEvents.RepeatsExactlyWhenSuspended` | internal/app/ai_agent.go:75-85 | the pane gains a text that is no reply of this run exactly when the run raised a request and an earlier answer exists |
| `AgentEvents.EarlierAnswerIsRepeated` | internal/app/ai_agent.go:75-85 | one run that shows it: the model asks for a command, nothing is answered, and the earlier answer appears again |
| `AgentEvents.ChatPane.HandleAgentEvent` | internal/tui/tui.go:899-937 | the pane's fields follow the view the theorems speak about |
| `AgentEvents.ChatPane.HandleAll` | internal/tui/tui.go:899-937 | draining a stream folds the handler over it |
| `AppService.Service.ExecuteSessionCommandResult` | internal/app/ssh_command_result.go:19-49 | a command reaches the executor only on a tab found, of protocol ssh and connected |
| `AppService.Service.SuspendCall` | internal/app/native_tool_calling.go:370-385 | refines the suspension `LoopFacts.SuspendProgress` is about |
| `AppService.Service.DispatchNativeExec` | internal/app/native_tool_calling.go:301-390 | refines the ssh.exec dispatch |
| `AppService.Service.DispatchNativeSFTPWrite` | internal/app/native_tool_calling.go:229-260 | refines the sftp.write dispatch, which never writes by itself |
| `AppService.Service.DispatchNativeSFTPLook` | internal/app/native_tool_calling.go:393-490 | refines the checks and the access of the stat, list and read tools |
| `AppService.Service.DispatchNativeDiagnostics` | internal/app/native_diagnostics.go:29-109 | two loops, all checks before any execution |
| `AppService.Service.DispatchNativeToolCall` | internal/app/native_tool_calling.go:277-300 | refines the dispatch all loop theorems are about |
| `AppService.Service.RunNativeToolCalls` | internal/app/native_tool_calling.go:100-135 | the loop over one batch refines the batch of the theorems |
| `AppService.Service.RunNativeToolLoopWithEvents` | internal/app/native_tool_calling.go:72-139 | the bounded loop refines the turns of the theorems, events included |
| `AppService.Service.NativeToolSystemPrompt` | internal/app/native_tool_calling.go:586-598 | the prompt names exactly the enabled tools, in order |
| `AppService.Service.NativeMessagesFromState` | internal/app/native_tool_calling.go:141-147 | prompt, transcript and user message, in order |
| `AppService.Service.ProviderFor` | internal/app/native_tool_calling.go:549-580 | the first provider with the identifier, if it can be used |
| `AppService.Service.SendChatMessage` | internal/app/service_ai.go:570-591 | refines sending a message |
| `AppService.Service.Run` | internal/app/ai_agent.go:32-88 | refines the agent run: same state, same events, early exits included |
| `AppService.Service.ResumePendingNativeToolCall` | internal/app/native_tool_calling.go:519-547 | refines resuming: the continuation is cleared before the loop starts |
| `AppService.Service.ResolveCommandPolicyRequest` | internal/app/service_command_policy.go:41-80 | refines resolving a request |
| `AppService.Service.DenyRequest` | internal/app/service_command_policy.go:54-73 | refines a denial, with and without a continuation |
| `AppService.Service.Approve` | internal/app/service_command_policy.go:75-89 | refines the checks before an approval: tool, tab, continuation |
| `AppService.Service.ApproveSFTPWrite` | internal/app/service_command_policy.go:90-116 | refines an approved write: consumed first, written after |
| `AppService.Service.ApproveShellCommand` | internal/app/service_command_policy.go:117-157 | refines an approved command: denied, with a continuation, and without one |
| `AppService.Service.ClearConversation` | internal/app/service_command_policy.go:16-30 | refines clearing: no message, request or continuation is left if it can be saved |
| `AppService.Service.UpdateCommandPolicy` | internal/app/service_command_policy.go:32-39 | refines replacing the policy by its normal form |
| `AppService.Service.LockSecureStorage` | internal/app/service.go:182-208 | refines locking, as far as the stored AI state goes |
| `AppService.Service.PerformAll` | internal/app/service_command_policy.go:41-157 | any run of calls on the service itself is the run of the theorems, and a safe one |
| `Separated.SplitIsUnique` | internal/tui/tui.go:1337 | the pieces of a text are the only separator-free pieces that join to it |
| `LineEditor.PositionsAreOffsets` | internal/tui/tui.go:1335-1371 | cursor positions and offsets 0 to the text's length correspond one to one |
| `LineEditor.TypingIsErasable` | internal/tui/tui.go:1356-1370 | as many backspaces as characters typed, line breaks included, restore text and cursor |
| `LineEditor.DeleteIsRightBackspace` | internal/tui/tui.go:1361-1366 | delete is a step right and a backspace |
| `LineEditor.MovingKeepsText` | internal/tui/tui.go:1348-1355 | any sequence of moves leaves the text alone, so saving writes it back unchanged |
| `LineEditor.UpThenDown` | internal/tui/tui.go:1352-1355 | up and then down returns exactly when the line above is long enough for the column |
| `LineEditor.LeftThenRight` | internal/tui/tui.go:1348-1351 | left and then right returns exactly when there is something to the left, or nothing at all |
| `LineEditor.LeftsGoBack` | internal/tui/tui.go:1348-1349 | each left goes back one place of the text |
| `LineEditor.PrintableExactly` | internal/tui/tui.go:1367-1370 | a text is typed as it is exactly when it has no control character |
| `LineEditor.SftpEditor.StartSFTPEditor` | internal/tui/tui.go:1335-1340 | the lines stand for exactly the file's content, cursor at its start |
| `LineEditor.SftpEditor.SaveSFTPEditor` | internal/tui/tui.go:1375-1379 | what is saved is the flat text |
| `LineEditor.SftpEditor.Escape` | internal/tui/tui.go:1344-1345 | leaving the editor drops its lines |
| `LineEditor.SftpEditor.MoveLeft` | internal/tui/tui.go:1348-1349 | one offset back, across line starts |
| `LineEditor.SftpEditor.MoveRight` | internal/tui/tui.go:1350-1351 | one offset on, across line ends |
| `LineEditor.SftpEditor.MoveUp` | internal/tui/tui.go:1352-1353 | the same column in the previous line of the text, or its end |
| `LineEditor.SftpEditor.MoveDown` | internal/tui/tui.go:1354-1355 | the same column in the next line of the text, or its end |
| `LineEditor.SftpEditor.PressEnter` | internal/tui/tui.go:1356-1360 | append-and-shift inserts a newline at the offset |
| `LineEditor.SftpEditor.PressBackspace` | internal/tui/tui.go:1361-1363 | deletes the character before the offset, a newline included |
| `LineEditor.SftpEditor.PressDelete` | internal/tui/tui.go:1364-1366 | deletes the character at the offset, a newline included |
| `LineEditor.SftpEditor.TypeRunes` | internal/tui/tui.go:1367-1370 | inserts the printable runes at the offset |
| `LineEditor.SftpEditor.UpdateAll` | internal/tui/tui.go:1342-1373 | any key sequence follows the flat editor, the cursor in bounds and the lines those of the text |
| `SshManager.Manager.Disconnect` | internal/ssh/manager.go:160-168 | removes the tab's entries and closes the connection they held |
| `SshManager.Manager.DisconnectConnection` | internal/ssh/manager.go:173-184 | does so only for the connection it was given |
| `SshManager.Manager.Connect` | internal/ssh/manager.go:56-132 | disconnects first, then installs, fails, or notes an unknown key |
| `SshManager.Manager.AcceptHostKey` | internal/ssh/manager.go:302-335 | writes the pending key and then drops it |
| `SshManager.UninterruptedIsSequential` | internal/ssh/manager.go:56-184 | a goroutine that runs uninterrupted does what its method does |
| `SshManager.WaiterIsSequential` | internal/ssh/manager.go:173-184 | so does a waiter |
| `SshManager.ConnectTakesOver` | internal/ssh/manager.go:56-132 | a Connect closes what the tab held, once, and leaves the tab with the new connection, the key to ask about, or nothing; other tabs keep theirs |
| `SshManager.DisconnectEmptiesTab` | internal/ssh/manager.go:160-168 | a Disconnect leaves the tab with nothing, other tabs as they were, and a second one does nothing |
| `SshManager.HandlerLastsUntilDisconnect` | internal/ssh/manager.go:160-168 | a handler is set for its tab alone and lasts until that tab is connected or disconnected |
| `SshManager.EveryConnectionIsAccounted` | internal/ssh/manager.go:119-184 | under every interleaving no connection is closed twice, and the unclosed ones are exactly the mapped, the queued for closing and the overwritten |
| `SshManager.WaiterTouchesOnlyItsOwn` | internal/ssh/manager.go:126-129 | a waiter never removes, closes or disturbs another connection's entries |
| `SshManager.SerialConnectsLeakNothing` | internal/ssh/manager.go:56-132 | if Connects on a tab do not overlap, every unclosed connection is mapped or about to be closed |
| `SshManager.LeaksExactlyWhenOverwriting` | internal/ssh/manager.go:119-123 | a step leaks exactly when it installs over a mapped connection |
| `SshManager.LeakIsForever` | internal/ssh/manager.go:173-184 | nothing ever closes an overwritten connection |
| `SshManager.OverlappingConnectsLeak` | internal/ssh/manager.go:56-132 | from any state two overlapping Connects lose the first connection |
| `SshManager.AcceptDropsOnlyWhatItWrote` | internal/ssh/manager.go:302-335 | in every run AcceptHostKey drops only the key it has written to known_hosts |
| `SshManager.NewerKeySurvives` | internal/ssh/manager.go:329-333 | a key noted after an acceptor read its own survives that acceptor |
| `SshManager.AcceptingTrustsWhatWasMet` | internal/ssh/manager.go:281-335 | a Connect that meets an unknown host and then an accept add exactly that host with that key |
| `SshManager.EveryTrustedKeyWasMet` | internal/ssh/manager.go:281-335 | under every interleaving each trusted host and key was met by some Connect of the run, and each pending key on its own tab |
| `RuntimeTabs.EveryWorkspaceIsConsistent` | internal/storage/disk/store.go:332-384 | identifiers stay distinct and the active tab is open whenever any tab is |
| `RuntimeTabs.ActiveIsEmptyIffNoneOpen` | internal/storage/disk/store.go:371-382 | with non-empty identifiers, the active one is empty exactly when no tab is open |
| `RuntimeTabs.CloseUndoesOpen` | internal/storage/disk/store.go:332-384 | opening a fresh tab and closing it leaves the tabs as they were |
| `RuntimeTabs.OpenTells` | internal/storage/disk/store.go:332-346 | opening keeps every other tab in its place and lists the opened one once, in place or last |
| `RuntimeTabs.CloseTells` | internal/storage/disk/store.go:348-384 | closing keeps all other tabs in order and activates the one after the closed tab, or before it at the end |
| `RuntimeTabs.BackgroundCloseKeepsActiveExactly` | internal/storage/disk/store.go:371-382 | closing a tab that is not active keeps the active one exactly when that is the neighbour that takes over |
| `RuntimeTabs.BackgroundCloseMovesActive` | internal/storage/disk/store.go:371-382 | closing the first of three tabs while the last is active activates the middle one |
| `RuntimeTabs.EventsAreDistinct` | internal/storage/disk/store.go:332-384 | over every sequence of operations no two events share an identifier |
| `RuntimeTabs.DiskStore.OpenRuntimeTab` | internal/storage/disk/store.go:332-346 | map and order follow the ordered list: in place if open, last if new, active either way |
| `RuntimeTabs.DiskStore.CloseRuntimeTab` | internal/storage/disk/store.go:348-384 | the filtering loop removes the tab, and the one now in its place or the last becomes active |
| `RuntimeTabs.DiskStore.RuntimeTabs` | internal/storage/disk/store.go:219-227 | lists the tabs in order |
| `RuntimeTabs.MemoryStore.OpenRuntimeTab` | internal/storage/memory/store.go:230-246 | the same list as the disk store |
| `RuntimeTabs.MemoryStore.CloseRuntimeTab` | internal/storage/memory/store.go:248-289 | the same list as the disk store, from a body that orders its steps differently |
| `RuntimeTabs.StoresAgree` | internal/storage/memory/store.go:230-289 | both stores show the same tabs, active tab and events after every sequence of operations |
| `SecureStorage.Manager.Ensure` | internal/securestorage/manager.go:133-165 | refines unlocking and first-time setup |
| `SecureStorage.Manager.Store` | internal/securestorage/manager.go:186-206 | refines storing a secret |
| `SecureStorage.Manager.Load` | internal/securestorage/manager.go:208-224 | refines loading a secret |
| `SecureStorage.OneMasterKeyForever` | internal/securestorage/manager.go:133-165 | from an empty store on, the keyring record never changes and every row opens under the key it wraps |
| `SecureStorage.TableIsBelieved` | internal/securestorage/manager.go:186-234 | the sealed rows hold exactly what was stored last and not deleted since |
| `SecureStorage.LoadGivesLastStored` | internal/securestorage/manager.go:208-224 | after any calls a load gives the value stored last, or says that it is locked or cannot reach the store |
| `SecureStorage.OnlyTheFirstPasswordUnlocks` | internal/securestorage/manager.go:137-146 | only the password of the setup ever unlocks, and any other changes nothing |
| `SecureStorage.UnlockingRefusesExactly` | internal/securestorage/manager.go:133-146 | an empty password, an unreachable keyring and a wrong password are told apart, and none changes what is kept |
| `SecureStorage.BlankNamesHoldNothing` | internal/securestorage/manager.go:186-234 | a blank name stores nothing and reads as absent |
| `SetupRace.UninterruptedIsSequential` | internal/securestorage/manager.go:133-165 | the interleaved sections of one set-up or unlock run in a row are the method |
| `SetupRace.AgreeExactlyWhenWriterKeptLast` | internal/securestorage/manager.go:147-161 | in every run from an empty store memory holds the key the keyring wraps exactly when the set-up that wrote the keyring last also kept its key last |
| `SetupRace.TwoSetupsAgreeExactly` | internal/securestorage/manager.go:147-161 | the same for two set-ups that both made a key and are done |
| `SetupRace.SerialSetupsAgree` | internal/securestorage/manager.go:133-165 | set-ups that do not overlap always leave memory and keyring in agreement |
| `SetupRace.SecretsSurviveExactly` | internal/securestorage/manager.go:147-224 | a secret stored after any run is loaded again after a lock and an unlock exactly when memory and keyring agreed |
| `SetupRace.OverlappingSetupsDisagree` | internal/securestorage/manager.go:147-161 | from any empty store a run of two overlapping set-ups ends with a key in memory that the keyring does not wrap |
| `ChatStore.DiskStore.SyncChatSession` | internal/storage/disk/store.go:300-310 | refines mirroring the live messages into the active entry |
| `ChatStore.DiskStore.UpdateAIState` | internal/storage/disk/store.go:239-259 | refines an update with its rollback |
| `ChatStore.DiskStore.CreateChatSession` | internal/storage/disk/store.go:273-286 | refines creating a session |
| `ChatStore.DiskStore.ForkChatSession` | internal/storage/disk/store.go:954-977 | refines forking a session |
| `ChatStore.DiskStore.SelectChatSession` | internal/storage/disk/store.go:288-298 | refines selecting the first session with an identifier |
| `ChatStore.DiskStore.LoadAIChatHistory` | internal/storage/disk/store.go:556-578 | refines loading the history, missing, locked, older and broken forms included |
| `ChatStore.DiskStore.EnsureMasterPassword` | internal/storage/disk/store.go:678-713 | refines unlocking, including the early returns that keep the lock |
| `ChatStore.SyncMirrors` | internal/storage/disk/store.go:300-310 | after a sync the active entry holds the live messages, and syncing a mirrored state changes nothing |
| `ChatStore.UpdateMirrors` | internal/storage/disk/store.go:239-259 | after a successful update the mirror holds exactly when the update named sessions or changed messages |
| `ChatStore.SessionCallsMirror` | internal/storage/disk/store.go:273-298 | create, fork and select leave the live messages equal to the active entry |
| `ChatStore.EveryRunMirrors` | internal/storage/disk/store.go:239-310 | along every run of updates, creates, forks and selects, failed ones included, the active entry holds the live messages |
| `ChatStore.UpdateChangesOnlyActive` | internal/storage/disk/store.go:239-259 | a successful update keeps every session it names but the active one |
| `ChatStore.SelectTells` | internal/storage/disk/store.go:288-298 | selecting changes no session, and succeeds exactly when the session is listed and the settings can be written |
| `ChatStore.StartKeepsExactly` | internal/storage/disk/store.go:273-286 | starting a session keeps all earlier ones unchanged exactly if its identifier is new or says the same already |
| `ChatStore.StartedSessions` | internal/storage/disk/store.go:954-977 | create and fork add exactly one session under the new identifier, with its title and messages, and keep every other |
| `ChatStore.SelectingBackExactly` | internal/storage/disk/store.go:288-298 | going to another session and back restores the chat exactly when the live messages were the active entry's |
| `ChatStore.StartingAndBack` | internal/storage/disk/store.go:273-298 | starting a session and going back restores it beside the new session |
| `ChatStore.DisappearsExactly` | internal/storage/disk/store.go:239-310 | a listed session disappears exactly through a successful update that names a list without it and does not put it back as the active one |
| `ChatStore.NoSessionDisappears` | internal/storage/disk/store.go:239-310 | over every run of calls no listed session disappears unless an update named a list without it |
| `ChatStore.SwitchingKeepsEverything` | internal/storage/disk/store.go:273-298 | over every run of create, fork and select the session list only grows at its end |
| `ChatStore.FailedUpdateRollsBack` | internal/storage/disk/store.go:239-259 | an update fails exactly when the history to be stored cannot be or the settings cannot be written; a failed one leaves memory as it was, and the secret store holds the new history exactly when its accesses succeeded |
| `ChatStore.ForkNeverChangesSource` | internal/storage/disk/store.go:954-977 | whatever is said in a fork, the source keeps its messages |
| `ChatStore.UpdatePersists` | internal/storage/disk/store.go:544-554 | a successful update leaves in the secret store exactly the sessions in memory |
| `ChatStore.StartPersists` | internal/storage/disk/store.go:280-284 | so do create and fork |
| `ChatStore.LockedUpdateIsRejected` | internal/storage/disk/store.go:248-253 | while locked, an update that names sessions or changes messages is rejected and stores nothing |
| `ChatStore.UnlockSticksExactly` | internal/storage/disk/store.go:678-713 | for every store and every password, an unlock keeps the lock forever exactly when the vault opens and the history is found unreadable or undecodable, or nothing is read and the older history that waits cannot be stored and saved; it succeeds exactly when the vault opens and it does not stick |
| `ChatStore.UnlocksThatStick` | internal/storage/disk/store.go:686-708 | three such unlocks, with a keyring record or making one: the read fails, storing the older history fails, the settings cannot be written |
| `ChatStore.FirstSetupSticksExactly` | internal/storage/disk/store.go:678-713 | the first set-up over an older history sticks exactly when the record is made and the migration fails, access by access |
| `ChatStore.RefusedPasswordNeverSticks` | internal/storage/disk/store.go:678-685 | an unlock whose password opens nothing changes neither memory nor secrets and leaves the lock free |
| `ChatStore.UnlockRestoresExactly` | internal/storage/disk/store.go:556-713 | an unlock that succeeds after a lock and rejected updates gives back the state last persisted exactly when its identifier is kept and the conversation was read, or there was none and none waits, or the waiting one equals it |
| `ChatStore.LockThenUnlockRestores` | internal/storage/disk/store.go:664-713 | lock, any rejected updates, unlock with the password, every access succeeding: the persisted state is back exactly when its identifier is kept and its conversation is not empty or no older one waits |
| `ChatStore.MissedRestore` | internal/storage/disk/store.go:556-562 | two unlocks that report success without the conversation: the look for the history fails, or the keyring's status does |
| `ChatStore.MissedRestoreLosesTheConversation` | internal/storage/disk/store.go:556-562 | after either of them the next saved update replaces the stored conversation |
| `ChatStore.UnlockedMirrorsExactly` | internal/storage/disk/store.go:556-713 | after every unlock that succeeds the active identifier has an entry with the live messages exactly when a history was read, an older one was migrated, or the state loaded had such an entry |
| `ChatStore.StartedWhileLockedMirrorsExactly` | internal/storage/disk/store.go:273-286 | a session started while locked is not saved, and after any unlock that succeeds has an entry exactly when the stored history was not seen, an older one was migrated, or the stored sessions had an entry under its identifier that is not empty or matches |
| `ChatStore.CreatedWhileLockedDangles` | internal/storage/disk/store.go:273-286 | sessions created or forked while locked under a fresh identifier leave the active one without an entry exactly when the unlock that succeeds saw the stored history and no older one waited; with every access succeeding they do |
| `ChatStore.LockedSelectGivesBack` | internal/storage/disk/store.go:288-298 | after a lock, selecting any listed session makes its conversation live again without a password |
| `ChatStore.UpdateIsSave` | internal/storage/disk/store.go:239-259 | an update of this store is the save the service's transitions are built on |
| `ChatStore.LockDropsApprovalsExactly` | internal/app/service.go:182-208 | locking is the service's transition on this store, and drops continuation and requests exactly when no session is listed and the settings can be written |
| `ChatRestart.DefaultsPresent` | internal/storage/disk/store.go:892-898 | a restart keeps the stored providers in front and changes nothing exactly when every built-in one is among them |
| `ChatRestart.RestartTells` | internal/storage/disk/store.go:492-545 | restarting a saved state gives an empty chat with providers, policy and active session as saved; it fails exactly when the history is found and its row cannot be read |
| `ChatRestart.RestartThenUnlockRestores` | internal/storage/disk/store.go:492-713 | after a restart and an unlock that succeeds everything saved is back but the continuation, exactly when the unlock saw the history and the active identifier is kept, or there was nothing to give back |
| `ChatRestart.OlderHistoryWaitsExactly` | internal/storage/disk/store.go:613-623 | an unencrypted older history is still there at the next start exactly if no call has succeeded in between |
| `ChatRestart.SelectLosesOlderHistory` | internal/storage/disk/store.go:288-298 | selecting a session before the first unlock loses it |
| `PortForward.TokensMeanPorts` | internal/app/service_sessions.go:577-606 | a number stands for itself and `a-b` for every port from a to b, if they are ports and at most 256 |
| `PortForward.IntendedPortsAreValid` | internal/app/service_sessions.go:560-609 | all ports lie in 1 to 65535, at most 256 per token |
| `PortForward.BuildPortForwardSpecs` | internal/app/service_sessions.go:560-609 | the nested loops print exactly the intended forwards, in order |
| `PortForward.StartLocalForwards` | internal/ssh/manager.go:414-443 | listens on every parsed address, each given those already open, or, if one fails, closes all it opened |
| `PortForward.OpenExactlyWhenDistinct` | internal/ssh/manager.go:429-439 | if an address is taken once listened on, all forwards open exactly when their ports are free and distinct |
| `PortForward.SpecRoundTrip` | internal/ssh/manager.go:464-477 | one printed forward reads back as itself exactly when its host has no colon |
| `PortForward.OptionRoundTrip` | internal/ssh/manager.go:414-477 | a printed list reads back as exactly the intended forwards if and only if no host has a colon or a comma |
| `PortForward.ApplySSHForwardingSettings` | internal/app/service_sessions.go:501-558 | the option is the text of all active rules' forwards, rule by rule |
| `PortForward.RulesRoundTrip` | internal/app/service_sessions.go:531-557 | the round trip over several rules joined together |
| `PortForward.RulesOpenExactly` | internal/ssh/manager.go:414-443 | with hosts without colon or comma, what the rules in force mean opens exactly when the ports are free and no two forwards share a local one |
| `PortForward.RuleMeans` | internal/app/service_sessions.go:501-609 | a rule for local ports a to b forwards each of them to the given remote port or to its own number, and a disabled one forwards nothing |
| `PortForward.UnknownHostForwardsNothing` | internal/app/service_sessions.go:531-536 | a rule whose host is no known SSH profile with an address forwards nothing |
| `ProfileIds.BaseIsSlug` | internal/app/service_sessions.go:468-474 | the base is lower-case letters and digits in groups separated by single dashes |
| `ProfileIds.SlugIsItsOwnBase` | internal/app/service_sessions.go:468-474 | a slug is its own base |
| `ProfileIds.BaseKeepsLetters` | internal/app/service_sessions.go:468-474 | the base has exactly the letters and digits of the name, lower-case and in order; a name without any gets "session" |
| `ProfileIds.NumberingStartsAtTwo` | internal/app/service_sessions.go:475-484 | the identifiers tried after the base are the base with -2, then -3 |
| `ProfileIds.NextProfileID` | internal/app/service_sessions.go:470-484 | the loop ends within one probe more than there are profiles, with the first free candidate |
| `CloudAuth.AuthService.StartCloudProviderAuth` | internal/app/cloud_auth.go:83-86 | the new session replaces the current one |
| `CloudAuth.AuthService.FinishCloudProviderAuthSession` | internal/app/cloud_auth.go:199-238 | refines the section that ends a session |
| `CloudAuth.OneTokenPerSession` | internal/app/cloud_auth.go:117-153 | under any interleaving at most one token per session, brought by a request that knew that session's state |
| `CloudAuth.TokensComeFromPending` | internal/app/cloud_auth.go:209-226 | a token is stored only for the current session while it is pending, and completes it |
| `CloudAuth.PendingEndsExactly` | internal/app/cloud_auth.go:199-238 | a pending session is completed, expired or failed exactly by its own stored token, timeout or server failure while it is the current one |
| `CloudAuth.StartTells` | internal/app/cloud_auth.go:83-86 | a start makes a new pending session current and changes no other |
| `CloudAuth.CallbackAdvancesExactly` | internal/app/cloud_auth.go:117-153 | a callback passes its check exactly if it knew the state of the session current then, and goes on with a token exactly if it brought one |
| `CloudAuth.ClosedForever` | internal/app/cloud_auth.go:199-265 | no session returns to pending, and an ended or replaced one never gets a token |
| `CloudAuth.CompletionLastsUnlessOverridden` | internal/app/cloud_auth.go:88-96 | a completed session stays completed through a step exactly when the step is not its timeout or its server's failure while it is current |
| `CloudAuth.CompletedUntilOverridden` | internal/app/cloud_auth.go:199-238 | over every run it is still completed exactly when no move overrode it |
| `CloudAuth.CompletionIsOverridden` | internal/app/cloud_auth.go:88-96 | one run of each kind: token stored, then marked expired or failed |

## Left out

- Network, SSH and SFTP dialing, files, SQLite, the keyring and the model are answers from outside that may fail; what they do is not modelled.
- JSON encoding of arguments, results and histories: they are structured values, and malformed arguments are one value.
- The wording of tool results, prompts and most messages: a refusal is a kind without its text, and the chat note of a policy denial carries no reason.
- Audit records, user-interface notifications, timestamps and durations.
- What a stat, list or read returns, its truncation included: one answer from outside; the checks before it and the access are modelled.
- `AppService.Service.ProviderFor`: provider credentials and the checks of a local model are one outside answer that says whether the provider can be used.
- A service without an SFTP manager, whose tools answer that SFTP is not configured.
- Connecting SFTP before an approved write: opening the connection and writing are one outcome.
- Time-based identifiers are numbers from a strictly growing clock, so two calls in the same nanosecond are not modelled.
- Case folding covers ASCII letters only.
- A rule action's own spelling is resolved when the rule is read: allow, ask, deny or unrecognised.
- Service calls are atomic in runs; only the SSH manager and browser authorization are interleaved in full.
- `AtMostOnce.AtMostOnePerRequest`: takes runs whose policy updates do not put consumed requests back, because a caller of UpdateCommandPolicy could.
- `AppService.Service.LockSecureStorage`: works on the live part of the stored state, with the session list in `ChatStore`, and does not disconnect the SSH and SFTP sessions of open tabs, which `SshManager` covers for one tab.
- `AppService.Service.DispatchNativeDiagnostics`: the health summary computed from the six results is not part of the result.
- `ChatStore.DiskStore.EnsureMasterPassword`: does not refresh the flags that say which secrets exist.
- Sealing is symbolic: a box opens under exactly the key that sealed it, and derived keys of different passwords differ.
- `LineEditor.SftpEditor.StartSFTPEditor`: text is characters, so files that are not valid UTF-8 are not modelled.
- Slices shared between old and new states in the stores: the model works on values.
- Session profiles of the two stores, launch history, settings merging, SSH config import, secret lookups in external vaults: easy members.
- `PortForward.BuildPortForwardSpecs`: numbers too long for an integer are out of range here and an error in the source, with the same outcome.
- `SshManager.Manager.SetOutputHandler`: the per-connection copy of the handler, which nothing reads, is left out.
- `SshManager.Manager.Connect`: resources of an attempt that fails before it is installed are not counted as connections.
- `RuntimeTabs.StoresAgree`: timestamps of events are left out.
