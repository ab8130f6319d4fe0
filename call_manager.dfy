/** The warm-transfer orchestrator (CallManager). For one job it dials the
    first party, waits for the in-call service to report that leg
    connected, dials the second party, polls every 2 s for the second leg
    to become ACTIVE, merges after 3 s and writes back the job's status.
    When auto-accept is off, a confirmation gate is asked before each of
    the three steps.

    What the model takes as given from its surroundings:
    - the main-thread handler is `pending`, the set of posted runnables;
      the handler runs any of them at any time (the `...Fires` methods);
    - the confirmation gate's callbacks are fields set by the `Show...`
      steps and invoked by the gate's accept and decline inputs;
    - the in-call service's "first call connected" callback is a field set
      by StartFirstCall and invoked by its input; the service's answers to
      the queries the runnables make are a `Telephony` snapshot argument. */
module CallManager {
  import opened Platform
  import opened Reporting

  const FirstCallTimeoutMs: nat := 60000
  const OverallTimeoutMs: nat := 180000
  const SecondStepDelayMs: nat := 1000
  const PollIntervalMs: nat := 2000
  const MergeDelayMs: nat := 3000
  /** The poll gives up once its attempt counter exceeds this. */
  const MaxPollAttempts: int := 30

  /** What a posted runnable does when it runs. */
  datatype Task =
    | FirstCallTimeout(callId: int)
    | OverallTimeout(callId: int)
    | SecondStep(callId: int, contactNumber: string)
    | PollTick(callId: int, attempts: int)
    | MergeStep(callId: int)

  /** A runnable posted on the handler. `serial` stands for the runnable
      object's identity: each posting creates a new object. */
  datatype Runnable = Runnable(serial: nat, task: Task, delayMs: nat)

  /** The gate's three accept callbacks and its decline callback. */
  datatype FirstAcceptHook = FirstAcceptHook(callId: int, teamNumber: string, contactNumber: string)
  datatype SecondAcceptHook = SecondAcceptHook(callId: int, contactNumber: string)
  datatype DeclineHook =
    | CleanupOnly
    | FailThenCleanup(callId: int)
    | CompleteThenCleanup(callId: int)

  /** The in-call service's "first call connected" callback. */
  datatype ConnectedHook = ConnectedHook(callId: int, contactNumber: string)

  datatype Step = FirstCallStep | SecondCallStep | MergeConfirmStep
  /** One confirmation request shown to the user. */
  datatype Prompt = Prompt(step: Step, callId: int)

  /** How the in-call service's merge call ended. The merge runnable
      writes back "completed" whatever the outcome; the outcome is kept in
      the snapshot so that MergeStepFires's contract visibly holds for
      each of the three. */
  datatype MergeOutcome = Merged | NotMerged | MergeThrew

  /** What the runnables read from the platform when they run: whether the
      in-call service counts the first call connected, whether its service
      instance exists, the state of its current call, the telephony line
      state, and how a merge attempt ends. */
  datatype Telephony = Telephony(
    firstCallConnected: bool,
    serviceRunning: bool,
    currentCallState: Option<int>,
    lineState: int,
    merge: MergeOutcome)

  /** The poll's test for the second leg: the service instance exists, it
      has a current call, and that call is ACTIVE. */
  predicate SecondLegActive(t: Telephony) {
    t.serviceRunning && t.currentCallState == Some(STATE_ACTIVE)
  }

  predicate LineIdle(t: Telephony) {
    t.lineState == CALL_STATE_IDLE
  }

  /** What one poll tick decides. */
  datatype PollAction = ProceedToMerge | FailJob | PollAgain(attempts: int)

  /** The decision of the poll tick posted with `attempts`: the second leg
      ACTIVE wins over an IDLE line; IDLE fails the job; otherwise the poll
      goes on with one more attempt, unless that exceeds the budget, in
      which case it proceeds to the merge as if the second leg had come
      up. */
  function PollStep(t: Telephony, attempts: int): (a: PollAction)
    ensures a == ProceedToMerge <==>
      SecondLegActive(t) || (!LineIdle(t) && attempts + 1 > MaxPollAttempts)
    ensures a == FailJob <==> !SecondLegActive(t) && LineIdle(t)
    ensures a.PollAgain? ==> a.attempts == attempts + 1 && a.attempts <= MaxPollAttempts
  {
    if SecondLegActive(t) then ProceedToMerge
    else if LineIdle(t) then FailJob
    else if attempts + 1 > MaxPollAttempts then ProceedToMerge
    else PollAgain(attempts + 1)
  }

  /** The number of ticks a poll at `attempts` runs before it proceeds to
      the merge, when every tick sees the same busy-but-not-ACTIVE line. */
  function TicksUntilMerge(t: Telephony, attempts: int): (n: nat)
    requires !SecondLegActive(t) && !LineIdle(t)
    requires 0 <= attempts <= MaxPollAttempts
    decreases MaxPollAttempts - attempts
  {
    match PollStep(t, attempts)
    case PollAgain(next) => 1 + TicksUntilMerge(t, next)
    case _ => 1
  }

  /** A poll never fails for lack of an answer: the tick posted with
      `attempts`, and every later one, seeing neither ACTIVE nor IDLE, the
      poll reaches the merge step on its 31 - attempts-th tick; a poll
      started at zero proceeds to the merge after 31 ticks, 62 s. */
  lemma {:induction false} PollProceedsToMerge(t: Telephony, attempts: int)
    requires !SecondLegActive(t) && !LineIdle(t)
    requires 0 <= attempts <= MaxPollAttempts
    ensures TicksUntilMerge(t, attempts) == MaxPollAttempts + 1 - attempts
    decreases MaxPollAttempts - attempts
  {
    match PollStep(t, attempts)
    case PollAgain(next) => PollProceedsToMerge(t, next);
    case _ =>
  }

  class CallManager {
    var currentCallId: Option<int>
    var pendingTeamNumber: Option<string>
    var pendingContactNumber: Option<string>
    var timeoutRunnable: Option<Runnable>
    var autoAcceptMode: bool
    /** The runnables posted on the handler and not yet run or removed. */
    var pending: set<Runnable>
    /** Runnables created so far; the next one gets this serial. */
    var nextSerial: nat
    // the confirmation gate's callbacks
    var onFirstCallAccepted: Option<FirstAcceptHook>
    var onSecondCallAccepted: Option<SecondAcceptHook>
    var onMergeAccepted: Option<int>
    var onDeclined: Option<DeclineHook>
    // the in-call service's callback
    var onFirstCallConnected: Option<ConnectedHook>
    /** Every status write-back issued, oldest first. */
    var sent: seq<Report>
    /** Every number dialled, oldest first. */
    var dialed: seq<string>
    /** Every confirmation request shown, oldest first. */
    var prompts: seq<Prompt>
    /** Length of `sent` when the current job was initiated. */
    ghost var jobStart: nat
    /** Whether a first call was started since the current job was
        initiated (and with it the overall timer posted). */
    ghost var armed: bool

    /** At most one write-back in the window opened when the current job
        was initiated, none while the job's id is still held, and only
        "completed" or "failed" are ever written back. */
    ghost predicate ReportedOnce()
      reads this`jobStart, this`sent, this`currentCallId
    {
      ReportedOnceSince(sent, jobStart, currentCallId.Some?)
    }

    /** Posted runnables have serials already handed out, and no poll tick
        carries an attempt count past the budget. */
    ghost predicate QueueValid()
      reads this`pending, this`nextSerial
    {
      && (forall r :: r in pending ==> r.serial < nextSerial)
      && (forall r :: r in pending && r.task.PollTick? ==> 0 <= r.task.attempts <= MaxPollAttempts)
    }

    /** Once the first call of the job whose id is held was started, an
        overall timer stays posted, and running it writes back "failed"
        while the id is held: the job's window cannot be left without any
        write-back (which job that write-back names is not fixed: a timer
        left over from an earlier job may be the one that runs). */
    ghost predicate TimerArmed()
      reads this`currentCallId, this`armed, this`pending
    {
      currentCallId.Some? && armed ==> exists r :: r in pending && r.task.OverallTimeout?
    }

    ghost predicate Valid()
      reads this`jobStart, this`sent, this`currentCallId, this`pending, this`nextSerial,
            this`armed, this`timeoutRunnable
    {
      && ReportedOnce() && QueueValid() && TimerArmed()
      && (timeoutRunnable.Some? ==> timeoutRunnable.value.task.FirstCallTimeout?)
    }

    /** A manager as constructed: auto-accept on, no job, nothing posted. */
    constructor ()
      ensures Valid()
      ensures currentCallId == None && autoAcceptMode
      ensures nextSerial == 0 && pending == {} && sent == [] && dialed == [] && prompts == []
      ensures onFirstCallAccepted == None && onSecondCallAccepted == None
      ensures onMergeAccepted == None && onDeclined == None && onFirstCallConnected == None
      ensures pendingTeamNumber == None && pendingContactNumber == None && timeoutRunnable == None
      ensures !armed
    {
      currentCallId := None;
      pendingTeamNumber, pendingContactNumber := None, None;
      timeoutRunnable := None;
      autoAcceptMode := true;
      pending := {};
      nextSerial := 0;
      onFirstCallAccepted, onSecondCallAccepted := None, None;
      onMergeAccepted, onDeclined := None, None;
      onFirstCallConnected := None;
      sent, dialed, prompts := [], [], [];
      jobStart, armed := 0, false;
    }

    /** handler.postDelayed: posts a new runnable. */
    method PostDelayed(task: Task, delayMs: nat)
      requires QueueValid()
      requires task.PollTick? ==> 0 <= task.attempts <= MaxPollAttempts
      modifies this`pending, this`nextSerial
      ensures QueueValid()
      ensures pending == old(pending) + {Runnable(old(nextSerial), task, delayMs)}
      ensures nextSerial == old(nextSerial) + 1
    {
      pending := pending + {Runnable(nextSerial, task, delayMs)};
      nextSerial := nextSerial + 1;
    }

    /** Writes back `status` for job `callId` unless this job was already
        written back: a no-op once the id is released, and otherwise the id
        is released before the report is issued. */
    method UpdateCallStatus(callId: int, status: string)
      requires ReportedOnce()
      requires IsTerminalStatus(status)
      modifies this`currentCallId, this`sent
      ensures ReportedOnce()
      ensures currentCallId == None
      ensures sent == if old(currentCallId).Some?
                      then old(sent) + [Report(callId, status)]
                      else old(sent)
    {
      if currentCallId == None {
        return;
      }
      currentCallId := None;
      sent := sent + [Report(callId, status)];
    }

    /** Removes every posted runnable, releases the job id, forgets the
        second number and the first-call timer, and resets the in-call
        service's per-job state. The first party's number is kept. */
    method Cleanup()
      requires Valid()
      modifies this`pending, this`currentCallId, this`pendingContactNumber,
               this`timeoutRunnable, this`onFirstCallConnected
      ensures Valid()
      ensures pending == {} && currentCallId == None
      ensures pendingContactNumber == None && timeoutRunnable == None
      ensures onFirstCallConnected == None
    {
      pending := {};
      currentCallId := None;
      pendingContactNumber := None;
      timeoutRunnable := None;
      onFirstCallConnected := None;
    }

    /** Public teardown: the same as Cleanup. */
    method Shutdown()
      requires Valid()
      modifies this`pending, this`currentCallId, this`pendingContactNumber,
               this`timeoutRunnable, this`onFirstCallConnected
      ensures Valid()
      ensures pending == {} && currentCallId == None
      ensures pendingContactNumber == None && timeoutRunnable == None
      ensures onFirstCallConnected == None
    {
      Cleanup();
    }

    /** Starts a job. With auto-accept the first party is dialled at once;
        otherwise only the first confirmation is requested. Runnables of an
        earlier job that were never removed stay posted. */
    method InitiateConferenceCall(callId: int, teamMemberNumber: string, contactNumber: string, autoAccept: bool)
      requires Valid()
      modifies this`autoAcceptMode, this`currentCallId, this`pendingTeamNumber, this`pendingContactNumber,
               this`onFirstCallConnected, this`onFirstCallAccepted, this`onSecondCallAccepted,
               this`onMergeAccepted, this`onDeclined, this`prompts, this`dialed,
               this`timeoutRunnable, this`pending, this`nextSerial, this`jobStart, this`armed
      ensures Valid()
      ensures autoAcceptMode == autoAccept && armed == autoAccept
      ensures currentCallId == Some(callId)
      ensures pendingTeamNumber == Some(teamMemberNumber) && pendingContactNumber == Some(contactNumber)
      ensures sent == old(sent) && jobStart == |sent|
      ensures onSecondCallAccepted == None && onMergeAccepted == None
      ensures autoAccept ==>
        && dialed == old(dialed) + [teamMemberNumber]
        && prompts == old(prompts)
        && onFirstCallConnected == Some(ConnectedHook(callId, contactNumber))
        && timeoutRunnable == Some(Runnable(old(nextSerial), FirstCallTimeout(callId), FirstCallTimeoutMs))
        && pending == old(pending) + {Runnable(old(nextSerial), FirstCallTimeout(callId), FirstCallTimeoutMs),
                                      Runnable(old(nextSerial) + 1, OverallTimeout(callId), OverallTimeoutMs)}
        && nextSerial == old(nextSerial) + 2
        && onFirstCallAccepted == None && onDeclined == None
      ensures !autoAccept ==>
        && dialed == old(dialed)
        && prompts == old(prompts) + [Prompt(FirstCallStep, callId)]
        && onFirstCallConnected == None
        && timeoutRunnable == old(timeoutRunnable)
        && pending == old(pending) && nextSerial == old(nextSerial)
        && onFirstCallAccepted == Some(FirstAcceptHook(callId, teamMemberNumber, contactNumber))
        && onDeclined == Some(CleanupOnly)
    {
      BeginJob(callId, teamMemberNumber, contactNumber, autoAccept);
      if autoAcceptMode {
        StartFirstCall(callId, teamMemberNumber, contactNumber);
      } else {
        ShowFirstCallConfirmation(callId, teamMemberNumber, contactNumber);
      }
    }

    /** Holds `callId` as the current job; no write-back for it yet. */
    method TakeJob(callId: int)
      requires Valid()
      modifies this`currentCallId, this`jobStart, this`armed
      ensures Valid()
      ensures currentCallId == Some(callId) && jobStart == |sent| && !armed
    {
      currentCallId, jobStart, armed := Some(callId), |sent|, false;
    }

    /** The part of InitiateConferenceCall before the first step: records
        the job and resets the in-call service's per-job state and the
        gate's callbacks. */
    method BeginJob(callId: int, teamMemberNumber: string, contactNumber: string, autoAccept: bool)
      requires Valid()
      modifies this`autoAcceptMode, this`currentCallId, this`pendingTeamNumber, this`pendingContactNumber,
               this`onFirstCallConnected, this`onFirstCallAccepted, this`onSecondCallAccepted,
               this`onMergeAccepted, this`onDeclined, this`jobStart, this`armed
      ensures Valid()
      ensures autoAcceptMode == autoAccept && currentCallId == Some(callId) && !armed
      ensures pendingTeamNumber == Some(teamMemberNumber) && pendingContactNumber == Some(contactNumber)
      ensures jobStart == |sent|
      ensures onFirstCallConnected == None && onFirstCallAccepted == None && onSecondCallAccepted == None
      ensures onMergeAccepted == None && onDeclined == None
    {
      TakeJob(callId);
      autoAcceptMode := autoAccept;
      pendingTeamNumber, pendingContactNumber := Some(teamMemberNumber), Some(contactNumber);
      // HardreachInCallService.reset(): drops the per-job observer state;
      // ConfirmCallActivity.reset(): drops every gate callback
      onFirstCallConnected, onFirstCallAccepted, onSecondCallAccepted, onMergeAccepted, onDeclined :=
        None, None, None, None, None;
    }

    /** Asks whether to dial the first party; accepting starts the first
        call, declining only cleans up. */
    method ShowFirstCallConfirmation(callId: int, teamMemberNumber: string, contactNumber: string)
      modifies this`onFirstCallAccepted, this`onDeclined, this`prompts
      ensures onFirstCallAccepted == Some(FirstAcceptHook(callId, teamMemberNumber, contactNumber))
      ensures onDeclined == Some(CleanupOnly)
      ensures prompts == old(prompts) + [Prompt(FirstCallStep, callId)]
    {
      onFirstCallAccepted := Some(FirstAcceptHook(callId, teamMemberNumber, contactNumber));
      onDeclined := Some(CleanupOnly);
      prompts := prompts + [Prompt(FirstCallStep, callId)];
    }

    /** Dials the first party, installs the "first call connected"
        callback, and arms the 60 s first-call timer and the 180 s overall
        timer. */
    method StartFirstCall(callId: int, teamMemberNumber: string, contactNumber: string)
      requires Valid()
      modifies this`onFirstCallConnected, this`dialed, this`timeoutRunnable, this`pending, this`nextSerial,
               this`armed
      ensures Valid()
      ensures armed
      ensures onFirstCallConnected == Some(ConnectedHook(callId, contactNumber))
      ensures dialed == old(dialed) + [teamMemberNumber]
      ensures timeoutRunnable == Some(Runnable(old(nextSerial), FirstCallTimeout(callId), FirstCallTimeoutMs))
      ensures pending == old(pending) + {Runnable(old(nextSerial), FirstCallTimeout(callId), FirstCallTimeoutMs),
                                         Runnable(old(nextSerial) + 1, OverallTimeout(callId), OverallTimeoutMs)}
      ensures nextSerial == old(nextSerial) + 2
    {
      onFirstCallConnected := Some(ConnectedHook(callId, contactNumber));
      dialed := dialed + [teamMemberNumber];
      timeoutRunnable := Some(Runnable(nextSerial, FirstCallTimeout(callId), FirstCallTimeoutMs));
      PostDelayed(FirstCallTimeout(callId), FirstCallTimeoutMs);
      PostDelayed(OverallTimeout(callId), OverallTimeoutMs);
      armed := true;
      assert Runnable(nextSerial - 1, OverallTimeout(callId), OverallTimeoutMs) in pending;
    }

    /** Asks whether to dial the second party; accepting dials it,
        declining fails the job. */
    method ShowSecondCallConfirmation(callId: int, contactNumber: string)
      modifies this`onSecondCallAccepted, this`onDeclined, this`prompts
      ensures onSecondCallAccepted == Some(SecondAcceptHook(callId, contactNumber))
      ensures onDeclined == Some(FailThenCleanup(callId))
      ensures prompts == old(prompts) + [Prompt(SecondCallStep, callId)]
    {
      onSecondCallAccepted := Some(SecondAcceptHook(callId, contactNumber));
      onDeclined := Some(FailThenCleanup(callId));
      prompts := prompts + [Prompt(SecondCallStep, callId)];
    }

    /** Dials the second party and starts the poll at attempt zero. */
    method CallProspect(callId: int, contactNumber: string)
      requires Valid()
      modifies this`dialed, this`pending, this`nextSerial, this`onMergeAccepted, this`onDeclined, this`prompts
      ensures Valid()
      ensures onMergeAccepted == old(onMergeAccepted) && onDeclined == old(onDeclined) && prompts == old(prompts)
      ensures dialed == old(dialed) + [contactNumber]
      ensures pending == old(pending) + {Runnable(old(nextSerial), PollTick(callId, 0), PollIntervalMs)}
      ensures nextSerial == old(nextSerial) + 1
    {
      dialed := dialed + [contactNumber];
      CheckForMergeReady(callId, 0);
    }

    /** One round of the poll: past the budget it goes on to the merge step
        instead of failing; otherwise it posts the next tick in 2 s. */
    method CheckForMergeReady(callId: int, attempts: int)
      requires Valid()
      requires 0 <= attempts
      modifies this`pending, this`nextSerial, this`onMergeAccepted, this`onDeclined, this`prompts
      ensures Valid()
      ensures attempts <= MaxPollAttempts ==>
        && pending == old(pending) + {Runnable(old(nextSerial), PollTick(callId, attempts), PollIntervalMs)}
        && nextSerial == old(nextSerial) + 1
        && onMergeAccepted == old(onMergeAccepted) && onDeclined == old(onDeclined) && prompts == old(prompts)
      ensures attempts > MaxPollAttempts ==> MergeStepTaken(old(pending), callId)
    {
      if attempts > MaxPollAttempts {
        AttemptMergeAndComplete(callId);
        return;
      }
      PostDelayed(PollTick(callId, attempts), PollIntervalMs);
    }

    /** What AttemptMergeAndComplete(callId) did to the fields it may
        change, starting from the posted runnables `before`: with
        auto-accept a merge runnable posted in 3 s, otherwise the merge
        confirmation requested. */
    twostate predicate MergeStepTaken(before: set<Runnable>, callId: int)
      reads this
    {
      if autoAcceptMode then
        && pending == before + {Runnable(old(nextSerial), MergeStep(callId), MergeDelayMs)}
        && nextSerial == old(nextSerial) + 1
        && onMergeAccepted == old(onMergeAccepted) && onDeclined == old(onDeclined) && prompts == old(prompts)
      else
        && pending == before && nextSerial == old(nextSerial)
        && onMergeAccepted == Some(callId) && onDeclined == Some(CompleteThenCleanup(callId))
        && prompts == old(prompts) + [Prompt(MergeConfirmStep, callId)]
    }

    /** Goes on to the merge: directly with auto-accept, otherwise after the
        merge confirmation. */
    method AttemptMergeAndComplete(callId: int)
      requires Valid()
      modifies this`pending, this`nextSerial, this`onMergeAccepted, this`onDeclined, this`prompts
      ensures Valid()
      ensures MergeStepTaken(old(pending), callId)
    {
      if autoAcceptMode {
        PerformMerge(callId);
      } else {
        ShowMergeConfirmation(callId);
      }
    }

    /** Asks whether to merge; accepting merges, declining still reports
        the job "completed" since both calls are up. */
    method ShowMergeConfirmation(callId: int)
      modifies this`onMergeAccepted, this`onDeclined, this`prompts
      ensures onMergeAccepted == Some(callId)
      ensures onDeclined == Some(CompleteThenCleanup(callId))
      ensures prompts == old(prompts) + [Prompt(MergeConfirmStep, callId)]
    {
      onMergeAccepted := Some(callId);
      onDeclined := Some(CompleteThenCleanup(callId));
      prompts := prompts + [Prompt(MergeConfirmStep, callId)];
    }

    /** Posts the merge-and-complete runnable 3 s ahead. */
    method PerformMerge(callId: int)
      requires Valid()
      modifies this`pending, this`nextSerial
      ensures Valid()
      ensures pending == old(pending) + {Runnable(old(nextSerial), MergeStep(callId), MergeDelayMs)}
      ensures nextSerial == old(nextSerial) + 1
    {
      PostDelayed(MergeStep(callId), MergeDelayMs);
    }

    /** The in-call service reports the first leg connected: the first-call
        timer is removed and the second step posted 1 s ahead. Nothing
        happens when no callback is installed. */
    method OnFirstCallConnected()
      requires Valid()
      modifies this`pending, this`nextSerial
      ensures Valid()
      ensures onFirstCallConnected.None? ==> pending == old(pending) && nextSerial == old(nextSerial)
      ensures onFirstCallConnected.Some? ==>
        var hook := onFirstCallConnected.value;
        var kept := if timeoutRunnable.Some? then old(pending) - {timeoutRunnable.value} else old(pending);
        && pending == kept + {Runnable(old(nextSerial), SecondStep(hook.callId, hook.contactNumber), SecondStepDelayMs)}
        && nextSerial == old(nextSerial) + 1
    {
      if onFirstCallConnected.Some? {
        var hook := onFirstCallConnected.value;
        if timeoutRunnable.Some? {
          pending := pending - {timeoutRunnable.value};
        }
        PostDelayed(SecondStep(hook.callId, hook.contactNumber), SecondStepDelayMs);
      }
    }

    /** The gate's "accept" on the first step: starts the first call. */
    method OnFirstCallAccepted()
      requires Valid()
      modifies this`onFirstCallConnected, this`dialed, this`timeoutRunnable, this`pending, this`nextSerial,
               this`armed
      ensures Valid()
      ensures onFirstCallAccepted.None? ==>
        && dialed == old(dialed) && pending == old(pending) && nextSerial == old(nextSerial)
        && onFirstCallConnected == old(onFirstCallConnected) && timeoutRunnable == old(timeoutRunnable)
        && armed == old(armed)
      ensures onFirstCallAccepted.Some? ==>
        var hook := onFirstCallAccepted.value;
        && armed
        && dialed == old(dialed) + [hook.teamNumber]
        && onFirstCallConnected == Some(ConnectedHook(hook.callId, hook.contactNumber))
        && timeoutRunnable == Some(Runnable(old(nextSerial), FirstCallTimeout(hook.callId), FirstCallTimeoutMs))
        && pending == old(pending) + {Runnable(old(nextSerial), FirstCallTimeout(hook.callId), FirstCallTimeoutMs),
                                      Runnable(old(nextSerial) + 1, OverallTimeout(hook.callId), OverallTimeoutMs)}
        && nextSerial == old(nextSerial) + 2
    {
      if onFirstCallAccepted.Some? {
        var hook := onFirstCallAccepted.value;
        StartFirstCall(hook.callId, hook.teamNumber, hook.contactNumber);
      }
    }

    /** The gate's "accept" on the second step: dials the second party. */
    method OnSecondCallAccepted()
      requires Valid()
      modifies this`dialed, this`pending, this`nextSerial, this`onMergeAccepted, this`onDeclined, this`prompts
      ensures Valid()
      ensures onSecondCallAccepted.None? ==>
        dialed == old(dialed) && pending == old(pending) && nextSerial == old(nextSerial)
      ensures onSecondCallAccepted.Some? ==>
        var hook := onSecondCallAccepted.value;
        && dialed == old(dialed) + [hook.contactNumber]
        && pending == old(pending) + {Runnable(old(nextSerial), PollTick(hook.callId, 0), PollIntervalMs)}
        && nextSerial == old(nextSerial) + 1
      ensures onMergeAccepted == old(onMergeAccepted) && onDeclined == old(onDeclined) && prompts == old(prompts)
    {
      if onSecondCallAccepted.Some? {
        var hook := onSecondCallAccepted.value;
        CallProspect(hook.callId, hook.contactNumber);
      }
    }

    /** The gate's "accept" on the merge step: posts the merge. */
    method OnMergeAccepted()
      requires Valid()
      modifies this`pending, this`nextSerial
      ensures Valid()
      ensures onMergeAccepted.None? ==> pending == old(pending) && nextSerial == old(nextSerial)
      ensures onMergeAccepted.Some? ==>
        && pending == old(pending) + {Runnable(old(nextSerial), MergeStep(onMergeAccepted.value), MergeDelayMs)}
        && nextSerial == old(nextSerial) + 1
    {
      if onMergeAccepted.Some? {
        PerformMerge(onMergeAccepted.value);
      }
    }

    /** The gate's "decline" (explicit or on its own timeout): a decline at
        the first step only cleans up, at the second step it fails the job,
        at the merge step it completes the job. */
    method OnDeclined()
      requires Valid()
      modifies this`pending, this`currentCallId, this`pendingContactNumber,
               this`timeoutRunnable, this`onFirstCallConnected, this`sent
      ensures Valid()
      ensures onDeclined.None? ==>
        pending == old(pending) && currentCallId == old(currentCallId) && sent == old(sent) &&
        pendingContactNumber == old(pendingContactNumber) && timeoutRunnable == old(timeoutRunnable) &&
        onFirstCallConnected == old(onFirstCallConnected)
      ensures onDeclined.Some? ==>
        && pending == {} && currentCallId == None && pendingContactNumber == None
        && timeoutRunnable == None && onFirstCallConnected == None
        && sent == old(sent) + match onDeclined.value
             case CleanupOnly => []
             case FailThenCleanup(id) => if old(currentCallId).Some? then [Report(id, Failed)] else []
             case CompleteThenCleanup(id) => if old(currentCallId).Some? then [Report(id, Completed)] else []
    {
      if onDeclined.Some? {
        match onDeclined.value {
          case CleanupOnly =>
            Cleanup();
          case FailThenCleanup(id) =>
            UpdateCallStatus(id, Failed);
            Cleanup();
          case CompleteThenCleanup(id) =>
            UpdateCallStatus(id, Completed);
            Cleanup();
        }
      }
    }

    /** The 60 s first-call timer: fails the job and cleans up only if the
        in-call service does not count the first call connected. */
    method FirstCallTimeoutFires(r: Runnable, t: Telephony)
      requires Valid()
      requires r in pending && r.task.FirstCallTimeout?
      modifies this`pending, this`currentCallId, this`pendingContactNumber,
               this`timeoutRunnable, this`onFirstCallConnected, this`sent
      ensures Valid()
      ensures t.firstCallConnected ==>
        pending == old(pending) - {r} && currentCallId == old(currentCallId) && sent == old(sent) &&
        pendingContactNumber == old(pendingContactNumber) && timeoutRunnable == old(timeoutRunnable) &&
        onFirstCallConnected == old(onFirstCallConnected)
      ensures !t.firstCallConnected ==>
        && pending == {} && currentCallId == None && pendingContactNumber == None
        && timeoutRunnable == None && onFirstCallConnected == None
        && sent == old(sent) + (if old(currentCallId).Some? then [Report(r.task.callId, Failed)] else [])
    {
      pending := pending - {r};
      if !t.firstCallConnected {
        UpdateCallStatus(r.task.callId, Failed);
        Cleanup();
      }
    }

    /** The 180 s overall timer: fails the job if its id is still held, and
        always cleans up. */
    method OverallTimeoutFires(r: Runnable)
      requires Valid()
      requires r in pending && r.task.OverallTimeout?
      modifies this`pending, this`currentCallId, this`pendingContactNumber,
               this`timeoutRunnable, this`onFirstCallConnected, this`sent
      ensures Valid()
      ensures pending == {} && currentCallId == None && pendingContactNumber == None
      ensures timeoutRunnable == None && onFirstCallConnected == None
      ensures sent == old(sent) + (if old(currentCallId).Some? then [Report(r.task.callId, Failed)] else [])
    {
      pending := pending - {r};
      if currentCallId.Some? {
        UpdateCallStatus(r.task.callId, Failed);
      }
      Cleanup();
    }

    /** The second step, 1 s after the first leg connected: dials the second
        party with auto-accept, otherwise requests the second confirmation. */
    method SecondStepFires(r: Runnable)
      requires Valid()
      requires r in pending && r.task.SecondStep?
      modifies this`pending, this`nextSerial, this`dialed, this`onSecondCallAccepted, this`onDeclined,
               this`prompts, this`onMergeAccepted
      ensures Valid()
      ensures autoAcceptMode ==>
        && dialed == old(dialed) + [r.task.contactNumber]
        && pending == old(pending) - {r} + {Runnable(old(nextSerial), PollTick(r.task.callId, 0), PollIntervalMs)}
        && nextSerial == old(nextSerial) + 1
        && prompts == old(prompts) && onSecondCallAccepted == old(onSecondCallAccepted)
        && onDeclined == old(onDeclined)
      ensures !autoAcceptMode ==>
        && dialed == old(dialed) && pending == old(pending) - {r} && nextSerial == old(nextSerial)
        && onSecondCallAccepted == Some(SecondAcceptHook(r.task.callId, r.task.contactNumber))
        && onDeclined == Some(FailThenCleanup(r.task.callId))
        && prompts == old(prompts) + [Prompt(SecondCallStep, r.task.callId)]
      ensures sent == old(sent) && currentCallId == old(currentCallId)
      ensures onMergeAccepted == old(onMergeAccepted)
    {
      pending := pending - {r};
      if autoAcceptMode {
        CallProspect(r.task.callId, r.task.contactNumber);
      } else {
        ShowSecondCallConfirmation(r.task.callId, r.task.contactNumber);
      }
    }

    /** One poll tick: the second leg ACTIVE is checked first and leads to
        the merge step; otherwise an IDLE line fails the job and cleans up;
        otherwise the poll goes on with one more attempt, and once the
        attempts run out it goes on to the merge step instead of failing. */
    method PollTickFires(r: Runnable, t: Telephony)
      requires Valid()
      requires r in pending && r.task.PollTick?
      modifies this`pending, this`nextSerial, this`onMergeAccepted, this`onDeclined, this`prompts,
               this`currentCallId, this`pendingContactNumber, this`timeoutRunnable,
               this`onFirstCallConnected, this`sent
      ensures Valid()
      ensures PollStep(t, r.task.attempts) != FailJob ==>
        && sent == old(sent) && currentCallId == old(currentCallId)
        && pendingContactNumber == old(pendingContactNumber) && timeoutRunnable == old(timeoutRunnable)
        && onFirstCallConnected == old(onFirstCallConnected)
      ensures PollStep(t, r.task.attempts) == ProceedToMerge ==> MergeStepTaken(old(pending) - {r}, r.task.callId)
      ensures PollStep(t, r.task.attempts) == FailJob ==>
        && pending == {} && currentCallId == None && onFirstCallConnected == None
        && pendingContactNumber == None && timeoutRunnable == None
        && sent == old(sent) + (if old(currentCallId).Some? then [Report(r.task.callId, Failed)] else [])
        && nextSerial == old(nextSerial) && prompts == old(prompts)
        && onFirstCallAccepted == old(onFirstCallAccepted) && onSecondCallAccepted == old(onSecondCallAccepted)
        && onMergeAccepted == old(onMergeAccepted) && onDeclined == old(onDeclined)
      ensures PollStep(t, r.task.attempts).PollAgain? ==>
        && pending == old(pending) - {r} + {Runnable(old(nextSerial), PollTick(r.task.callId, r.task.attempts + 1), PollIntervalMs)}
        && nextSerial == old(nextSerial) + 1
        && onMergeAccepted == old(onMergeAccepted) && onDeclined == old(onDeclined) && prompts == old(prompts)
    {
      pending := pending - {r};
      var callId := r.task.callId;
      if SecondLegActive(t) {
        AttemptMergeAndComplete(callId);
        return;
      }
      if LineIdle(t) {
        UpdateCallStatus(callId, Failed);
        Cleanup();
        return;
      }
      CheckForMergeReady(callId, r.task.attempts + 1);
    }

    /** The merge runnable, 3 s after the merge was started: asks the
        in-call service to merge and then reports the job "completed"
        whether the merge went through, returned false or threw. */
    method MergeStepFires(r: Runnable, t: Telephony)
      requires Valid()
      requires r in pending && r.task.MergeStep?
      modifies this`pending, this`currentCallId, this`pendingContactNumber,
               this`timeoutRunnable, this`onFirstCallConnected, this`sent
      ensures Valid()
      ensures pending == {} && currentCallId == None && onFirstCallConnected == None
      ensures pendingContactNumber == None && timeoutRunnable == None
      ensures sent == old(sent) + (if old(currentCallId).Some? then [Report(r.task.callId, Completed)] else [])
    {
      pending := pending - {r};
      // the merge request's outcome, t.merge, only decides which lines are logged
      UpdateCallStatus(r.task.callId, Completed);
      Cleanup();
    }
  }
}
