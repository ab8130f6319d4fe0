/** The observer-driven call sequencer (CallStateManager): a line-state
    listener flips four flags as the telephony line goes OFFHOOK or IDLE,
    two timers bound the job (20 s without any line event, 120 s overall),
    and the job's status is written back at most once, by whichever of the
    "completed" and "failed" paths runs first. */
module CallStateManager {
  import opened Platform
  import opened Reporting

  const CallAttemptTimeoutMs: nat := 20000
  const OverallTimeoutMs: nat := 120000

  datatype TimerKind = CallAttemptTimeout | OverallTimeout

  /** A runnable posted on the main-thread handler. `serial` stands for the
      runnable object's identity: each posting creates a new object. */
  datatype Runnable = Runnable(serial: nat, kind: TimerKind, delayMs: nat)

  class CallStateManager {
    var currentCallId: Option<int>
    var isFirstCallConnected: bool
    var isSecondCallConnected: bool
    var isSecondCallInProgress: bool
    var hasAttemptedStateChange: bool
    /** Whether the line-state listener is registered. */
    var listening: bool
    var timeoutRunnable: Option<Runnable>
    var overallTimeoutRunnable: Option<Runnable>
    /** The runnables posted on the handler and not yet run or removed. */
    var pending: set<Runnable>
    /** Runnables created so far; the next one gets this serial. */
    var nextSerial: nat
    /** Every status write-back issued, oldest first. */
    var sent: seq<Report>
    /** Length of `sent` when the current job's monitoring started. */
    ghost var jobStart: nat

    /** At most one write-back in the window opened when the current
        job's monitoring started, none while the job's id is still held,
        and only "completed" or "failed" are written back. */
    ghost predicate ReportedOnce()
      reads this`jobStart, this`sent, this`currentCallId
    {
      ReportedOnceSince(sent, jobStart, currentCallId.Some?)
    }

    /** ReportedOnce, plus: a connected second leg has been reported
        "completed"; while the listener is registered the id is held unless
        the second leg connected; while the listener is registered the
        current overall timer is posted, so a job whose id is held cannot be
        left without a write-back; the flags only hold in the combinations
        the listener can produce. */
    ghost predicate Valid()
      reads this
    {
      && ReportedOnce()
      && (listening ==> overallTimeoutRunnable.Some? && overallTimeoutRunnable.value in pending)
      && (timeoutRunnable.Some? ==> timeoutRunnable.value.kind == CallAttemptTimeout)
      && (overallTimeoutRunnable.Some? ==> overallTimeoutRunnable.value.kind == OverallTimeout)
      && (isSecondCallConnected ==>
            isSecondCallInProgress && currentCallId.None? &&
            |sent| == jobStart + 1 && sent[jobStart].status == Completed)
      && (listening ==> currentCallId.Some? || isSecondCallConnected)
      && (isFirstCallConnected ==> hasAttemptedStateChange)
      && (forall r :: r in pending ==> r.serial < nextSerial)
    }

    constructor ()
      ensures Valid()
      ensures currentCallId == None && !listening && pending == {} && sent == [] && nextSerial == 0
      ensures !isFirstCallConnected && !isSecondCallConnected
      ensures !isSecondCallInProgress && !hasAttemptedStateChange
      ensures timeoutRunnable == None && overallTimeoutRunnable == None
    {
      currentCallId := None;
      isFirstCallConnected, isSecondCallConnected := false, false;
      isSecondCallInProgress, hasAttemptedStateChange := false, false;
      listening := false;
      timeoutRunnable, overallTimeoutRunnable := None, None;
      pending := {};
      nextSerial := 0;
      sent := [];
      jobStart := 0;
    }

    /** The part of StartMonitoring before the listener and the timers:
        takes the id and clears the four flags. */
    method ResetForJob(callId: int)
      requires Valid()
      modifies this`currentCallId, this`jobStart, this`isFirstCallConnected, this`isSecondCallConnected,
               this`isSecondCallInProgress, this`hasAttemptedStateChange
      ensures Valid()
      ensures currentCallId == Some(callId) && jobStart == |sent|
      ensures !isFirstCallConnected && !isSecondCallConnected
      ensures !isSecondCallInProgress && !hasAttemptedStateChange
    {
      currentCallId, jobStart := Some(callId), |sent|;
      isFirstCallConnected, isSecondCallConnected := false, false;
      isSecondCallInProgress, hasAttemptedStateChange := false, false;
    }

    /** Starts a job: takes its id, clears all four flags, registers the
        listener and arms the 20 s attempt timer and the 120 s overall
        timer. Runnables of an earlier job that were never removed stay
        posted. */
    method StartMonitoring(callId: int, teamNumber: string, contactNumber: string)
      requires Valid()
      modifies this
      ensures Valid()
      ensures currentCallId == Some(callId)
      ensures !isFirstCallConnected && !isSecondCallConnected
      ensures !isSecondCallInProgress && !hasAttemptedStateChange
      ensures listening
      ensures timeoutRunnable == Some(Runnable(old(nextSerial), CallAttemptTimeout, CallAttemptTimeoutMs))
      ensures overallTimeoutRunnable == Some(Runnable(old(nextSerial) + 1, OverallTimeout, OverallTimeoutMs))
      ensures pending == old(pending) + {timeoutRunnable.value, overallTimeoutRunnable.value}
      ensures nextSerial == old(nextSerial) + 2
      ensures sent == old(sent) && jobStart == |sent|
    {
      ResetForJob(callId);
      var attempt := Runnable(nextSerial, CallAttemptTimeout, CallAttemptTimeoutMs);
      var overall := Runnable(nextSerial + 1, OverallTimeout, OverallTimeoutMs);
      timeoutRunnable, overallTimeoutRunnable := Some(attempt), Some(overall);
      pending, nextSerial, listening := pending + {attempt, overall}, nextSerial + 2, true;
    }

    /** The caller has placed the second call. */
    method SetSecondCallInProgress()
      requires Valid()
      modifies this`isSecondCallInProgress
      ensures Valid()
      ensures isSecondCallInProgress
    {
      isSecondCallInProgress := true;
    }

    /** The first leg connected; that needs a line-state callback to have
        arrived. */
    predicate IsFirstCallAnswered(): (r: bool)
      reads this
      requires Valid()
      ensures r <==> isFirstCallConnected
      ensures r ==> hasAttemptedStateChange
    {
      isFirstCallConnected
    }

    /** The second leg connected; by then the second call was placed and the
        job was written back "completed". */
    predicate IsSecondCallAnswered(): (r: bool)
      reads this
      requires Valid()
      ensures r <==> isSecondCallConnected
      ensures r ==> isSecondCallInProgress && currentCallId.None? &&
                    |sent| == jobStart + 1 && sent[jobStart].status == Completed
    {
      isSecondCallConnected
    }

    /** Both legs connected; once that holds the job has already been
        written back and its id released. */
    function AreBothCallsConnected(): (r: bool)
      reads this
      requires Valid()
      ensures r <==> isFirstCallConnected && isSecondCallConnected
      ensures r ==> currentCallId.None? && |sent| == jobStart + 1 && sent[jobStart].status == Completed
    {
      isFirstCallConnected && isSecondCallConnected
    }

    /** Writes back `status` for the current job unless it was already
        written back: the id is released before the report is issued. */
    method MarkCall(status: string)
      requires ReportedOnce()
      requires IsTerminalStatus(status)
      modifies this`currentCallId, this`sent
      ensures ReportedOnce()
      ensures currentCallId == None
      ensures sent == if old(currentCallId).Some?
                      then old(sent) + [Report(old(currentCallId).value, status)]
                      else old(sent)
    {
      if currentCallId == None {
        return;
      }
      var callId := currentCallId.value;
      currentCallId := None;
      sent := sent + [Report(callId, status)];
    }

    method MarkCallCompleted()
      requires ReportedOnce()
      modifies this`currentCallId, this`sent
      ensures ReportedOnce()
      ensures currentCallId == None
      ensures sent == if old(currentCallId).Some?
                      then old(sent) + [Report(old(currentCallId).value, Completed)]
                      else old(sent)
    {
      MarkCall(Completed);
    }

    method MarkCallFailed()
      requires ReportedOnce()
      modifies this`currentCallId, this`sent
      ensures ReportedOnce()
      ensures currentCallId == None
      ensures sent == if old(currentCallId).Some?
                      then old(sent) + [Report(old(currentCallId).value, Failed)]
                      else old(sent)
    {
      MarkCall(Failed);
    }

    /** Removes the current attempt timer from the handler. */
    method CancelCallAttemptTimeout()
      requires Valid()
      modifies this`pending
      ensures Valid()
      ensures pending == if timeoutRunnable.Some? then old(pending) - {timeoutRunnable.value} else old(pending)
    {
      if timeoutRunnable.Some? {
        pending := pending - {timeoutRunnable.value};
      }
    }

    /** Unregisters the listener and removes the current job's two timers;
        the id and the flags are left as they are. */
    method Cleanup()
      requires ReportedOnce() && (forall r :: r in pending ==> r.serial < nextSerial)
      modifies this`listening, this`pending
      ensures ReportedOnce() && (forall r :: r in pending ==> r.serial < nextSerial)
      ensures !listening
      ensures pending == old(pending)
                         - (if timeoutRunnable.Some? then {timeoutRunnable.value} else {})
                         - (if overallTimeoutRunnable.Some? then {overallTimeoutRunnable.value} else {})
    {
      listening := false;
      if timeoutRunnable.Some? {
        pending := pending - {timeoutRunnable.value};
      }
      if overallTimeoutRunnable.Some? {
        pending := pending - {overallTimeoutRunnable.value};
      }
    }

    method StopMonitoring()
      requires Valid()
      modifies this`listening, this`pending
      ensures Valid()
      ensures !listening
      ensures pending == old(pending)
                         - (if timeoutRunnable.Some? then {timeoutRunnable.value} else {})
                         - (if overallTimeoutRunnable.Some? then {overallTimeoutRunnable.value} else {})
    {
      Cleanup();
    }

    /** The listener's callback for one line-state change. Any callback
        records that the line moved. OFFHOOK connects the first leg (and
        stops the attempt timer) when nothing is connected and no second
        call is under way, or connects the second leg, and reports
        "completed", when a second call is under way. IDLE reports "failed"
        unless the second leg connected, and then cleans up. Connected
        flags are never cleared here. */
    method OnCallStateChanged(state: int)
      requires Valid()
      requires listening
      modifies this
      ensures Valid()
      ensures hasAttemptedStateChange
      ensures old(isFirstCallConnected) ==> isFirstCallConnected
      ensures old(isSecondCallConnected) ==> isSecondCallConnected
      ensures isSecondCallInProgress == old(isSecondCallInProgress)
      ensures timeoutRunnable == old(timeoutRunnable) && overallTimeoutRunnable == old(overallTimeoutRunnable)
      ensures nextSerial == old(nextSerial) && jobStart == old(jobStart)
      // OFFHOOK
      ensures state == CALL_STATE_OFFHOOK ==>
        && listening == old(listening)
        && isFirstCallConnected == (old(isFirstCallConnected) || !old(isSecondCallInProgress))
        && isSecondCallConnected == (old(isSecondCallConnected) || old(isSecondCallInProgress))
        && (!old(isFirstCallConnected) && !old(isSecondCallInProgress) ==>
              pending == (if timeoutRunnable.Some? then old(pending) - {timeoutRunnable.value} else old(pending))
              && sent == old(sent) && currentCallId == old(currentCallId))
        && (old(isSecondCallInProgress) && !old(isSecondCallConnected) ==>
              pending == old(pending) && currentCallId == None
              && sent == old(sent) + (if old(currentCallId).Some? then [Report(old(currentCallId).value, Completed)] else []))
        && (old(isFirstCallConnected) && !old(isSecondCallInProgress) ==>
              pending == old(pending) && sent == old(sent) && currentCallId == old(currentCallId))
        && (old(isSecondCallConnected) ==>
              pending == old(pending) && sent == old(sent) && currentCallId == old(currentCallId))
      // IDLE
      ensures state == CALL_STATE_IDLE ==>
        && !listening
        && isFirstCallConnected == old(isFirstCallConnected)
        && isSecondCallConnected == old(isSecondCallConnected)
        && currentCallId == (if old(isSecondCallConnected) then old(currentCallId) else None)
        && sent == old(sent) + (if !old(isSecondCallConnected) && old(currentCallId).Some?
                                then [Report(old(currentCallId).value, Failed)] else [])
        && pending == old(pending)
                      - (if timeoutRunnable.Some? then {timeoutRunnable.value} else {})
                      - (if overallTimeoutRunnable.Some? then {overallTimeoutRunnable.value} else {})
      // RINGING and every other code: only the "line moved" flag changes
      ensures state != CALL_STATE_OFFHOOK && state != CALL_STATE_IDLE ==>
        && listening == old(listening) && pending == old(pending)
        && isFirstCallConnected == old(isFirstCallConnected)
        && isSecondCallConnected == old(isSecondCallConnected)
        && sent == old(sent) && currentCallId == old(currentCallId)
    {
      hasAttemptedStateChange := true;
      if state == CALL_STATE_RINGING {
        // ringing: nothing to record
      } else if state == CALL_STATE_OFFHOOK {
        if !isFirstCallConnected && !isSecondCallInProgress {
          isFirstCallConnected := true;
          CancelCallAttemptTimeout();
        } else if isSecondCallInProgress && !isSecondCallConnected {
          isSecondCallConnected := true;
          MarkCallCompleted();
        }
      } else if state == CALL_STATE_IDLE {
        if !isFirstCallConnected {
          MarkCallFailed();
        } else if isSecondCallInProgress && !isSecondCallConnected {
          MarkCallFailed();
        } else if !isSecondCallInProgress {
          MarkCallFailed();
        }
        Cleanup();
      }
    }

    /** The 20 s attempt timer: fails the job and cleans up only if no
        line-state callback at all has arrived. */
    method CallAttemptTimeoutFires(r: Runnable)
      requires Valid()
      requires r in pending && r.kind == CallAttemptTimeout
      modifies this`pending, this`listening, this`currentCallId, this`sent
      ensures Valid()
      ensures hasAttemptedStateChange ==>
        pending == old(pending) - {r} && listening == old(listening)
        && sent == old(sent) && currentCallId == old(currentCallId)
      ensures !hasAttemptedStateChange ==>
        && !listening && currentCallId == None
        && sent == old(sent) + (if old(currentCallId).Some? then [Report(old(currentCallId).value, Failed)] else [])
        && pending == old(pending) - {r}
                      - (if timeoutRunnable.Some? then {timeoutRunnable.value} else {})
                      - (if overallTimeoutRunnable.Some? then {overallTimeoutRunnable.value} else {})
    {
      pending := pending - {r};
      if !hasAttemptedStateChange {
        MarkCallFailed();
        Cleanup();
      }
    }

    /** The 120 s overall timer: fails the job unless the second leg
        connected, and always cleans up. */
    method OverallTimeoutFires(r: Runnable)
      requires Valid()
      requires r in pending && r.kind == OverallTimeout
      modifies this`pending, this`listening, this`currentCallId, this`sent
      ensures Valid()
      ensures !listening
      ensures pending == old(pending) - {r}
                         - (if timeoutRunnable.Some? then {timeoutRunnable.value} else {})
                         - (if overallTimeoutRunnable.Some? then {overallTimeoutRunnable.value} else {})
      ensures isSecondCallConnected ==> sent == old(sent) && currentCallId == old(currentCallId)
      ensures !isSecondCallConnected ==>
        currentCallId == None &&
        sent == old(sent) + (if old(currentCallId).Some? then [Report(old(currentCallId).value, Failed)] else [])
    {
      pending := pending - {r};
      if !isSecondCallConnected {
        MarkCallFailed();
      }
      Cleanup();
    }
  }
}
