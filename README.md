# Hardreach dialer: warm-transfer call sequencing

The Hardreach dialer places "warm-transfer" three-way calls for a job from a
CRM. It dials a team member, waits for that leg to connect, dials the
prospect, waits for the second leg, merges the two into a conference, and
writes the job's outcome (`completed` or `failed`) back to the CRM. This
project models the call sequencing core in Dafny and proves properties of it.
The core has four parts.

- `CallManager` (`call_manager.dfy`) is the orchestrator. It has an optional
  confirmation gate before each of its three steps. It uses a 60 s
  first-call timer and a 180 s overall timer, a 2 s poll for the second leg
  of up to 31 ticks (attempts 0 to 30), and a 3 s merge delay.
- `CallStateManager` (`call_state_manager.dfy`) is an alternative sequencer,
  driven by line-state events. None of the other classes cited in this
  README constructs it. Four flags follow OFFHOOK and IDLE. It has a 20 s
  "no line activity" timer and a 120 s overall timer.
- `StatusManager` (`status_manager.dfy`) is the status board. It has a
  "current status" banner and a newest-first log of at most 50 lines.
- `HardreachInCallService` (`in_call_service.dfy`) tracks the platform's
  calls. It names call states and raises "conference active" when exactly
  two tracked calls are both ACTIVE.

How the model represents the platform:

- The main-thread `Handler` is the field `pending`, the set of posted
  runnables. A runnable carries a `serial` that stands for the identity of
  the runnable object, so `removeCallbacks(r)` removes exactly that object.
  `removeCallbacksAndMessages(null)` empties the set.
- The body of each posted lambda is a `...Fires` method. Each such method
  requires its runnable to be pending.
- Write-backs, dialled numbers and confirmation prompts are sequence fields
  (`sent`, `dialed`, `prompts`), appended at the point the code issues them.
- Both sequencers keep an invariant, `ReportedOnce`, defined once as
  `Reporting.ReportedOnceSince`:
  - since the current job started, at most one write-back was issued;
  - none was issued while the job's id is still held;
  - every write-back says `completed` or `failed`.

  Every method keeps this invariant. Most require it and re-establish it.
  The `Show...` steps and `PostDelayed` keep it because their frames leave
  out the fields it reads.
- Both sequencers also keep an overall timer posted while a write-back may
  still be due:
  - in `CallManager`, the ghost flag `armed` is set when the job's first
    call is started and cleared when a job is initiated. While the id is
    held and `armed` is set, an overall-timer runnable is pending
    (`TimerArmed`). Running it writes back "failed" while the id is held.
  - in `CallStateManager`, while the listener is registered, the current
    overall timer is pending.

  So a job whose first call was placed cannot be left without any
  write-back in its window. `ReportedOnce` gives the other half: at most
  one write-back.
- `platform.dfy` holds the Android constants used: the `Call.STATE_*` codes
  and the `TelephonyManager.CALL_STATE_*` codes. It also holds Kotlin's
  decimal rendering of an `Int` inside a string template, with a
  read-back that shows the rendering loses nothing.
- `reporting.dfy` holds the write-back record.
- Three scenario files drive whole jobs from a fresh object and prove the
  write-backs that result: `scenarios.dfy`, `monitor_scenarios.dfy` and
  `in_call_scenarios.dfy`.

Behaviour the model keeps exactly as the code has it:

- The decline callback that `CallManager` installs for the first
  confirmation step only cleans up (CallManager.kt:86-88). No `failed` is
  written back through `CallManager` and no call is placed. So a job
  declined there gets no write-back from `CallManager`: its guarantee is
  "at most one", not "exactly one". The confirmation activity in the
  repository also writes back "failed" itself on every decline, including
  its own 30 s auto-decline (ConfirmCallActivity.kt:27-37, 94-101). That
  write-back does not go through `CallManager`'s id guard. It is not
  modelled; see "Left out".
- A decline does not unregister the other gate callbacks. `Cleanup`
  (CallManager.kt:397-405) does not either. In manual mode, a second-step
  accept that arrives after the 180 s timer has failed the job still
  dials the contact and posts a poll tick
  (`Scenarios.LateAcceptAfterTimeout`).
- `CallStateManager` does not clean up when the second leg connects. Its
  timers stay posted until they run or the line goes IDLE.
- Starting a new job in either sequencer does not remove runnables left
  over from an earlier job. So with one manager reused, an earlier job's
  180 s timer can run inside the next job's window. It then writes back
  "failed" under the earlier id, releases the held id and removes every
  runnable, and the later job gets no write-back of its own
  (`Scenarios.OverlappingJobs`). `ReportedOnce` counts write-backs per
  window, not per job id. `PollAlarmReceiver.kt:114` and
  `ConfirmCallActivity.kt:88` build a fresh `CallManager` for each job.
  `WebhookService.kt:49` keeps one manager, but its call at
  `WebhookService.kt:150` passes two arguments and does not match the
  three-parameter `initiateConferenceCall`.
- When the poll budget runs out, `CallManager` proceeds to the merge and
  reports `completed` instead of failing.
- The orchestrator's field `autoAcceptMode` starts as `true`, but every job
  overwrites it from the preference `auto_accept`, whose default is `false`.
  That preference is a parameter of `InitiateConferenceCall` here.

## Model

| member | source | states |
|---|---|---|
| StatusManager.Prepended | app/src/main/java/com/hardreach/dialer/StatusManager.kt:41-46 | the new entry is at index 0; every other line is the old line one place further down; the length grows by one below 50 and stays put at 50 |
| StatusManager.PrependedBounded | app/src/main/java/com/hardreach/dialer/StatusManager.kt:25-46 | a log within 50 lines stays within 50; a full log loses exactly its oldest line and keeps the others in order |
| StatusManager.LogEntryMessage | app/src/main/java/com/hardreach/dialer/StatusManager.kt:38-39 | a log line is `[timestamp] message`; the timestamp and the message can both be read back from it |
| StatusManager.StatusManager.constructor | app/src/main/java/com/hardreach/dialer/StatusManager.kt:18-22 | the board starts with "Waiting for calls..." and an empty log |
| StatusManager.StatusManager.UpdateStatus | app/src/main/java/com/hardreach/dialer/StatusManager.kt:30-32 | replaces the banner; the log is not in its frame, so it is unchanged |
| StatusManager.StatusManager.Log | app/src/main/java/com/hardreach/dialer/StatusManager.kt:37-47 | the new log is the old one with the stamped entry prepended and trimmed to 50; the 50-line bound is kept |
| StatusManager.StatusManager.CallStarted | app/src/main/java/com/hardreach/dialer/StatusManager.kt:50-53 | the banner becomes "📞 Calling n..." and exactly one line "Initiating call to n" is logged |
| StatusManager.StatusManager.CallConnected | app/src/main/java/com/hardreach/dialer/StatusManager.kt:55-58 | the banner becomes "✓ Connected to n" and exactly one line is logged |
| Platform.DigitsDenote | app/src/main/java/com/hardreach/dialer/StatusManager.kt:61-62 | the decimal digits of n read back as n, and only 0 starts with the digit 0 |
| Platform.DecimalStringDenotes | app/src/main/java/com/hardreach/dialer/HardreachInCallService.kt:23 | an Int rendered in a string template is digits after an optional minus sign, and it reads back as the same Int |
| StatusManager.StatusManager.WaitingForAnswer | app/src/main/java/com/hardreach/dialer/StatusManager.kt:60-63 | the banner and the one log line carry the seconds in decimal |
| StatusManager.StatusManager.MergingCalls | app/src/main/java/com/hardreach/dialer/StatusManager.kt:65-68 | the merging banner and one "Attempting to merge calls" line |
| StatusManager.StatusManager.ConferenceCreated | app/src/main/java/com/hardreach/dialer/StatusManager.kt:70-73 | the "conference active, muted" banner and one "created successfully" line |
| StatusManager.StatusManager.CallFailed | app/src/main/java/com/hardreach/dialer/StatusManager.kt:75-78 | the banner becomes "❌ Call failed: r" and one "Call failed: r" line is logged |
| StatusManager.StatusManager.Idle | app/src/main/java/com/hardreach/dialer/StatusManager.kt:80-83 | the banner returns to "Waiting for calls..." and one "Ready for next call" line is logged |
| InCallService.StateName | app/src/main/java/com/hardreach/dialer/HardreachInCallService.kt:46-54 | naming is total: the name is "UNKNOWN" exactly for codes outside the six known states; a known state's name reads back as that state, and "UNKNOWN" reads back as no state |
| InCallService.StateNameInjective | app/src/main/java/com/hardreach/dialer/HardreachInCallService.kt:46-54 | every name that reads back as a state is that state's name, so the six names are distinct |
| InCallService.CountActive | app/src/main/java/com/hardreach/dialer/HardreachInCallService.kt:61 | the count is at most the list length; it equals the length iff every call is ACTIVE, and it is zero iff none is |
| InCallService.ConferenceReady | app/src/main/java/com/hardreach/dialer/HardreachInCallService.kt:60-62 | the signal condition holds iff the reported state is ACTIVE, exactly two calls are tracked, and both are ACTIVE now |
| InCallService.RemoveFirst | app/src/main/java/com/hardreach/dialer/HardreachInCallService.kt:41 | removing an untracked call leaves the list unchanged; removing a tracked one shortens it by one |
| InCallService.RemoveFirstAt | app/src/main/java/com/hardreach/dialer/HardreachInCallService.kt:41 | what is removed is the first occurrence; the calls before it and after it keep their order |
| InCallService.RemoveFirstCount | app/src/main/java/com/hardreach/dialer/HardreachInCallService.kt:41 | as multisets, the result is the old list minus one occurrence of the call |
| InCallService.HardreachInCallService.constructor | app/src/main/java/com/hardreach/dialer/HardreachInCallService.kt:16 | the service starts with no tracked calls |
| InCallService.HardreachInCallService.OnCallAdded | app/src/main/java/com/hardreach/dialer/HardreachInCallService.kt:18-37 | appends the call, so the length grows by one; logs "Call detected - Total calls: N"; logs the two-calls notice exactly when the new length is 2; each of the two lines carries its own stamp |
| InCallService.HardreachInCallService.OnCallRemoved | app/src/main/java/com/hardreach/dialer/HardreachInCallService.kt:39-43 | the list loses the first occurrence of the call (see RemoveFirst and the lemmas after it) |
| InCallService.HardreachInCallService.HandleCallStateChange | app/src/main/java/com/hardreach/dialer/HardreachInCallService.kt:45-68 | returns the state's name; when ConferenceReady holds, the board shows the conference banner with one log line; otherwise the board is untouched |
| InCallService.HardreachInCallService.OnDestroy | app/src/main/java/com/hardreach/dialer/HardreachInCallService.kt:70-74 | empties the tracked list |
| InCallScenarios.BothCallsActive | app/src/main/java/com/hardreach/dialer/HardreachInCallService.kt:18-68 | two calls tracked, and the second turns ACTIVE: the board shows the conference, and the log holds four lines with the conference line above the two-calls notice |
| InCallScenarios.OneCallStillDialing | app/src/main/java/com/hardreach/dialer/HardreachInCallService.kt:60-62 | an ACTIVE report while the other tracked call is still dialling leaves the waiting banner |
| InCallScenarios.ThirdCallBlocksSignal | app/src/main/java/com/hardreach/dialer/HardreachInCallService.kt:60 | with three tracked calls all ACTIVE, no conference is signalled |
| InCallScenarios.RemovedThirdCallRestoresSignal | app/src/main/java/com/hardreach/dialer/HardreachInCallService.kt:39-66 | after the third call is removed, the next ACTIVE report signals the conference |
| CallStateManager.CallStateManager.constructor | app/src/main/java/com/hardreach/dialer/CallStateManager.kt:20-35 | no job, all flags false, no timer remembered, nothing posted, listener not registered |
| CallStateManager.CallStateManager.ResetForJob | app/src/main/java/com/hardreach/dialer/CallStateManager.kt:90-97 | holds the new id with no write-back yet and clears all four flags, keeping the invariant |
| CallStateManager.CallStateManager.StartMonitoring | app/src/main/java/com/hardreach/dialer/CallStateManager.kt:90-121 | sets the id; resets all four flags to false; registers the listener; posts two new runnables (20 s attempt, 120 s overall) without removing older ones; starts a new write-back window |
| CallStateManager.CallStateManager.SetSecondCallInProgress | app/src/main/java/com/hardreach/dialer/CallStateManager.kt:123-126 | sets the in-progress flag and keeps the invariant |
| CallStateManager.CallStateManager.IsFirstCallAnswered | app/src/main/java/com/hardreach/dialer/CallStateManager.kt:128-130 | true iff the first leg connected, and then a line-state callback has arrived |
| CallStateManager.CallStateManager.IsSecondCallAnswered | app/src/main/java/com/hardreach/dialer/CallStateManager.kt:132-134 | true iff the second leg connected; by then the second call was placed, the id was released and the job was written back "completed" |
| CallStateManager.CallStateManager.AreBothCallsConnected | app/src/main/java/com/hardreach/dialer/CallStateManager.kt:136-138 | exactly the conjunction of the two connected flags; when it holds, the job's single write-back is "completed" |
| CallStateManager.CallStateManager.MarkCall | app/src/main/java/com/hardreach/dialer/CallStateManager.kt:147-171 | a no-op once the id is released; otherwise releases the id and writes back the status under that id |
| CallStateManager.CallStateManager.MarkCallCompleted | app/src/main/java/com/hardreach/dialer/CallStateManager.kt:147-158 | at most one "completed" for the held id; the id is always released after |
| CallStateManager.CallStateManager.MarkCallFailed | app/src/main/java/com/hardreach/dialer/CallStateManager.kt:160-171 | at most one "failed" for the held id; the id is always released after |
| CallStateManager.CallStateManager.CancelCallAttemptTimeout | app/src/main/java/com/hardreach/dialer/CallStateManager.kt:140-145 | removes exactly the current attempt-timer runnable, if any |
| CallStateManager.CallStateManager.Cleanup | app/src/main/java/com/hardreach/dialer/CallStateManager.kt:213-220 | unregisters the listener and removes exactly the two current timer runnables; the id is not released |
| CallStateManager.CallStateManager.StopMonitoring | app/src/main/java/com/hardreach/dialer/CallStateManager.kt:209-211 | the same effect as Cleanup |
| CallStateManager.CallStateManager.OnCallStateChanged | app/src/main/java/com/hardreach/dialer/CallStateManager.kt:38-87 | every callback sets the activity flag, and connected flags never go back to false. OFFHOOK: with neither flag set it marks the first leg and cancels the attempt timer; with the second call in progress it marks the second leg and writes back "completed". IDLE: writes back "failed" unless the second leg connected, then cleans up. Other codes change nothing else |
| CallStateManager.CallStateManager.CallAttemptTimeoutFires | app/src/main/java/com/hardreach/dialer/CallStateManager.kt:103-109 | fails the job and cleans up only if no line-state callback has arrived; otherwise the timer just goes away |
| CallStateManager.CallStateManager.OverallTimeoutFires | app/src/main/java/com/hardreach/dialer/CallStateManager.kt:113-119 | writes back "failed" unless the second leg connected, and always cleans up |
| MonitorScenarios.BothAnswered | app/src/main/java/com/hardreach/dialer/CallStateManager.kt:45-85 | both legs answer, then the line goes IDLE: exactly one "completed" for the job |
| MonitorScenarios.OverallTimerAfterCompletion | app/src/main/java/com/hardreach/dialer/CallStateManager.kt:113-119 | the 120 s timer running after completion adds no second write-back |
| MonitorScenarios.NoLineActivity | app/src/main/java/com/hardreach/dialer/CallStateManager.kt:103-109 | with no callback within 20 s, the job gets exactly one "failed" |
| MonitorScenarios.FirstCallRangOut | app/src/main/java/com/hardreach/dialer/CallStateManager.kt:66-72 | ringing and then IDLE without an answer gives exactly one "failed" |
| MonitorScenarios.SecondCallDropped | app/src/main/java/com/hardreach/dialer/CallStateManager.kt:73-76 | IDLE while the second call is in progress gives exactly one "failed" |
| MonitorScenarios.SecondCallNeverConnects | app/src/main/java/com/hardreach/dialer/CallStateManager.kt:113-118 | if the second leg never connects, the overall timer gives exactly one "failed" |
| CallManager.PollStep | app/src/main/java/com/hardreach/dialer/CallManager.kt:194-235 | ACTIVE is checked before IDLE. The tick proceeds to the merge iff the second leg is ACTIVE, or the line is not IDLE and the next attempt exceeds 30. It fails the job iff the second leg is not ACTIVE and the line is IDLE. Otherwise it polls again with one more attempt, never past 30 |
| CallManager.PollProceedsToMerge | app/src/main/java/com/hardreach/dialer/CallManager.kt:194-235 | on a line that stays busy without the second leg turning ACTIVE, the tick posted with attempt k reaches the merge after exactly 31 - k ticks, so a poll never fails for lack of an answer and posts at most 31 ticks |
| CallManager.CallManager.constructor | app/src/main/java/com/hardreach/dialer/CallManager.kt:33-38 | no job, no numbers, no first-call timer remembered, auto-accept on, nothing posted, no callbacks installed, no first call started |
| CallManager.CallManager.UpdateCallStatus | app/src/main/java/com/hardreach/dialer/CallManager.kt:353-359 | a no-op when the id is already released; otherwise releases it and writes back exactly one report; only "completed" and "failed" are accepted |
| CallManager.CallManager.Cleanup | app/src/main/java/com/hardreach/dialer/CallManager.kt:397-405 | nothing stays posted; the id, the second number, the first-call timer and the in-call service's callback are cleared; the first party's number is kept |
| CallManager.CallManager.Shutdown | app/src/main/java/com/hardreach/dialer/CallManager.kt:407-409 | the same effect as Cleanup |
| CallManager.CallManager.InitiateConferenceCall | app/src/main/java/com/hardreach/dialer/CallManager.kt:49-80 | holds the job and starts a new write-back window. With auto-accept it dials the first party at once and posts the 60 s and 180 s timers. Without it, nothing is dialled or posted and only the first confirmation is requested. Runnables of an earlier job stay posted |
| CallManager.CallManager.TakeJob | app/src/main/java/com/hardreach/dialer/CallManager.kt:63 | holds the new id with no write-back yet and no first call started, keeping the invariant |
| CallManager.CallManager.BeginJob | app/src/main/java/com/hardreach/dialer/CallManager.kt:63-71 | records the job and the two numbers, and drops the in-call service's callback and all four gate callbacks |
| CallManager.CallManager.ShowFirstCallConfirmation | app/src/main/java/com/hardreach/dialer/CallManager.kt:82-98 | installs accept as "start the first call" and decline as "clean up only", and records one first-step prompt |
| CallManager.CallManager.StartFirstCall | app/src/main/java/com/hardreach/dialer/CallManager.kt:100-149 | installs the first-leg-connected callback, dials the first party, and posts exactly the 60 s first-call timer (remembered as the one to cancel) and the 180 s overall timer; sets `armed`, so the overall timer stays pending while the id is held |
| CallManager.CallManager.ShowSecondCallConfirmation | app/src/main/java/com/hardreach/dialer/CallManager.kt:151-169 | installs accept as "dial the prospect" and decline as "fail, then clean up", and records one second-step prompt |
| CallManager.CallManager.CallProspect | app/src/main/java/com/hardreach/dialer/CallManager.kt:174-189 | dials the prospect and posts the poll's first tick at attempt 0, 2 s ahead |
| CallManager.CallManager.CheckForMergeReady | app/src/main/java/com/hardreach/dialer/CallManager.kt:194-236 | up to attempt 30 it posts one tick carrying that attempt; past 30 it goes on to the merge step instead of failing |
| CallManager.CallManager.AttemptMergeAndComplete | app/src/main/java/com/hardreach/dialer/CallManager.kt:241-251 | with auto-accept it posts the merge 3 s ahead; otherwise it requests the merge confirmation |
| CallManager.CallManager.ShowMergeConfirmation | app/src/main/java/com/hardreach/dialer/CallManager.kt:253-272 | installs accept as "merge" and decline as "complete, then clean up", and records one merge prompt |
| CallManager.CallManager.PerformMerge | app/src/main/java/com/hardreach/dialer/CallManager.kt:274-286 | posts exactly one merge runnable 3000 ms ahead |
| CallManager.CallManager.OnFirstCallConnected | app/src/main/java/com/hardreach/dialer/CallManager.kt:102-118 | removes the first-call timer and posts the second step 1000 ms ahead; does nothing when no callback is installed |
| CallManager.CallManager.OnFirstCallAccepted | app/src/main/java/com/hardreach/dialer/CallManager.kt:83-85 | the first-step accept starts the first call with the numbers it was given; without a hook nothing changes |
| CallManager.CallManager.OnSecondCallAccepted | app/src/main/java/com/hardreach/dialer/CallManager.kt:152-154 | the second-step accept dials the prospect and starts the poll at attempt 0 |
| CallManager.CallManager.OnMergeAccepted | app/src/main/java/com/hardreach/dialer/CallManager.kt:254-256 | the merge accept posts exactly one merge runnable for the hooked id, 3000 ms ahead; without a hook nothing is posted |
| CallManager.CallManager.OnDeclined | app/src/main/java/com/hardreach/dialer/CallManager.kt:86-88 | runs the installed decline hook, and always cleans up after. A decline at the first step writes nothing back. One at the second step (hook installed at CallManager.kt:155-159) writes back "failed". One at the merge step (CallManager.kt:257-261) writes back "completed" |
| CallManager.CallManager.FirstCallTimeoutFires | app/src/main/java/com/hardreach/dialer/CallManager.kt:129-137 | fails the job and cleans up only if the first call is not connected; otherwise only the timer itself goes away |
| CallManager.CallManager.OverallTimeoutFires | app/src/main/java/com/hardreach/dialer/CallManager.kt:141-148 | writes back "failed" only while an id is held, and always cleans up |
| CallManager.CallManager.SecondStepFires | app/src/main/java/com/hardreach/dialer/CallManager.kt:111-117 | with auto-accept at the time it runs, it dials the prospect and starts the poll; otherwise it requests the second confirmation; nothing is written back |
| CallManager.CallManager.PollTickFires | app/src/main/java/com/hardreach/dialer/CallManager.kt:203-235 | follows PollStep. Proceeding to the merge takes the merge step (see MergeStepTaken) and writes nothing back. Failing writes back "failed" while the id is held, then cleans up: nothing stays posted, and the id, the second number, the first-call timer and the in-call callback are cleared. No gate callback, prompt or serial changes. Polling again posts the next tick with one more attempt. On both non-failing paths the id, the second number, the first-call timer and the in-call callback are unchanged |
| CallManager.CallManager.MergeStepFires | app/src/main/java/com/hardreach/dialer/CallManager.kt:276-285 | writes back "completed" while the id is held, whatever the merge request's outcome. Then it cleans up: nothing stays posted, and the id, the second number, the first-call timer and the in-call callback are cleared |
| Scenarios.AutoAcceptConference | app/src/main/java/com/hardreach/dialer/CallManager.kt:73-285 | auto-accept with both parties answering: team member then prospect are dialled, and the job gets exactly one "completed" |
| Scenarios.FirstCallUnanswered | app/src/main/java/com/hardreach/dialer/CallManager.kt:129-137 | the team member does not answer: only they are dialled, and there is exactly one "failed" |
| Scenarios.FirstCallTimerAfterAnswer | app/src/main/java/com/hardreach/dialer/CallManager.kt:129-137 | the 60 s timer running after the answer does nothing, and the job still ends with exactly one "completed" |
| Scenarios.FirstStepDeclined | app/src/main/java/com/hardreach/dialer/CallManager.kt:82-88 | a first-step decline places no call and writes nothing back |
| Scenarios.SecondStepDeclined | app/src/main/java/com/hardreach/dialer/CallManager.kt:155-159 | a second-step decline gives exactly one "failed", after only the team member was dialled |
| Scenarios.MergeDeclined | app/src/main/java/com/hardreach/dialer/CallManager.kt:257-261 | a merge decline gives exactly one "completed", after three prompts and both dials |
| Scenarios.LateAcceptAfterTimeout | app/src/main/java/com/hardreach/dialer/CallManager.kt:141-159 | manual mode: after the 180 s timer writes back "failed", a second-step accept still dials the contact and leaves one poll tick posted |
| Scenarios.OverlappingJobs | app/src/main/java/com/hardreach/dialer/CallManager.kt:63-148 | one manager, a second job started before the first ends: the first job's 180 s timer writes back "failed" for the first id, and the second job is left with no id, nothing posted and no write-back |
| Scenarios.CallsEndBeforeMerge | app/src/main/java/com/hardreach/dialer/CallManager.kt:224-229 | the line going IDLE during the poll gives exactly one "failed" |

## Left out

- The HTTP delivery of a write-back is not modelled. This covers the background thread, the server URL and API key read from preferences, and the request itself. A write-back is recorded in `sent` where the code decides to send it, even when delivery would be skipped for missing configuration.
- `Log` and `RemoteLogger` calls are left out. They have no effect on the sequencer's state.
- The banner and log calls that `CallManager` makes on the status board are not modelled on `CallManager`. `StatusManager` itself is modelled, and so are the in-call service's calls to it.
- `makeCall` is reduced to appending the number to `dialed`. Its TelecomManager and Intent plumbing and its swallowed exception are out of scope.
- The in-call service's companion API that `CallManager` uses is not part of this model. Its source is absent, so the model makes these choices:
  - `onFirstCallConnected` is the field `onFirstCallConnected`;
  - `reset()` is assumed to drop that callback;
  - the answers of `isFirstCallConnected`, `instance`, `currentCall`, `getCallState`, `mergeCalls()` and the telephony line state are the `Telephony` argument of the runnable that reads them;
  - `isCrmCall` is not modelled.
- The confirmation activity's companion API that `CallManager` uses is not part of this model. The activity's source in the repository has no companion callbacks and no `reset()`, so the four callbacks and their `reset()` are as absent as the in-call service's API. The model makes these choices:
  - the callbacks are the fields `onFirstCallAccepted`, `onSecondCallAccepted`, `onMergeAccepted` and `onDeclined`, with accept and decline inputs;
  - `reset()` is assumed to drop all four;
  - each confirmation request is recorded in `prompts`, and the activity launch is left out.
- The confirmation activity's own behaviour is left out: its 30 s auto-decline, its own write-back of "failed" on every decline (ConfirmCallActivity.kt:94-101), and its accept path, which builds a new `CallManager` and starts a job.
- `CallStateManager.CallStateManager.StopMonitoring` called from outside while an id is held leaves that job without a write-back. The model states this as it is; none of the classes cited here calls it.
- The wall clock is not modelled: `callStartTime`, `firstCallConnectTime` and the log timestamp format. A log timestamp is a parameter, one per log line written.
- Handler timing is not modelled. Delays are recorded in each runnable, but any pending runnable may run next. The model therefore allows more interleavings than real time does.
- The `auto_accept` preference read is a parameter of `InitiateConferenceCall`.
- `CallStateManager.CallStateManager.OnCallStateChanged` requires the listener to be registered. The platform only delivers to a registered listener. Its unused `phoneNumber` argument is dropped.
- A `Call` is an id plus a state that whoever drives the model sets. Callback registration on each call is replaced by calling `HandleCallStateChange` directly.
- Job ids are unbounded integers. Kotlin `Int` wrap-around is not modelled, and it cannot arise for the poll counter, which stays at most 31.

