/** Whole jobs driven through CallStateManager from a fresh manager: the
    caller places the calls, the platform delivers the line states given
    here, and the handler runs each timer at its turn. Each scenario
    returns the write-backs issued. */
module MonitorScenarios {
  import opened Platform
  import opened Reporting
  import CSM = CallStateManager

  /** Both legs answer, then the line goes IDLE: one "completed"
      write-back, and the IDLE after completion adds none. */
  method BothAnswered(callId: int, team: string, contact: string) returns (sent: seq<Report>)
    ensures sent == [Report(callId, Completed)]
  {
    var m := new CSM.CallStateManager();
    m.StartMonitoring(callId, team, contact);
    m.OnCallStateChanged(CALL_STATE_OFFHOOK);
    m.SetSecondCallInProgress();
    m.OnCallStateChanged(CALL_STATE_OFFHOOK);
    assert m.AreBothCallsConnected();
    m.OnCallStateChanged(CALL_STATE_IDLE);
    sent := m.sent;
  }

  /** Both legs answer and the 120 s timer still runs afterwards: it only
      cleans up, so the job keeps its single "completed" write-back. */
  method OverallTimerAfterCompletion(callId: int, team: string, contact: string) returns (sent: seq<Report>)
    ensures sent == [Report(callId, Completed)]
  {
    var m := new CSM.CallStateManager();
    m.StartMonitoring(callId, team, contact);
    m.OnCallStateChanged(CALL_STATE_OFFHOOK);
    m.SetSecondCallInProgress();
    m.OnCallStateChanged(CALL_STATE_OFFHOOK);
    m.OverallTimeoutFires(CSM.Runnable(1, CSM.OverallTimeout, CSM.OverallTimeoutMs));
    sent := m.sent;
  }

  /** No line-state callback within 20 s: "failed". */
  method NoLineActivity(callId: int, team: string, contact: string) returns (sent: seq<Report>)
    ensures sent == [Report(callId, Failed)]
  {
    var m := new CSM.CallStateManager();
    m.StartMonitoring(callId, team, contact);
    m.CallAttemptTimeoutFires(CSM.Runnable(0, CSM.CallAttemptTimeout, CSM.CallAttemptTimeoutMs));
    sent := m.sent;
  }

  /** The phone rings but nobody answers, and the line returns to IDLE:
      "failed". */
  method FirstCallRangOut(callId: int, team: string, contact: string) returns (sent: seq<Report>)
    ensures sent == [Report(callId, Failed)]
  {
    var m := new CSM.CallStateManager();
    m.StartMonitoring(callId, team, contact);
    m.OnCallStateChanged(CALL_STATE_RINGING);
    m.OnCallStateChanged(CALL_STATE_IDLE);
    sent := m.sent;
  }

  /** The first leg answers, the second call is placed, and the line goes
      IDLE before it connects: "failed". */
  method SecondCallDropped(callId: int, team: string, contact: string) returns (sent: seq<Report>)
    ensures sent == [Report(callId, Failed)]
  {
    var m := new CSM.CallStateManager();
    m.StartMonitoring(callId, team, contact);
    m.OnCallStateChanged(CALL_STATE_OFFHOOK);
    m.SetSecondCallInProgress();
    m.OnCallStateChanged(CALL_STATE_IDLE);
    sent := m.sent;
  }

  /** The first leg answers and the second never connects: the 120 s timer
      writes back "failed". */
  method SecondCallNeverConnects(callId: int, team: string, contact: string) returns (sent: seq<Report>)
    ensures sent == [Report(callId, Failed)]
  {
    var m := new CSM.CallStateManager();
    m.StartMonitoring(callId, team, contact);
    m.OnCallStateChanged(CALL_STATE_OFFHOOK);
    m.SetSecondCallInProgress();
    m.OverallTimeoutFires(CSM.Runnable(1, CSM.OverallTimeout, CSM.OverallTimeoutMs));
    sent := m.sent;
  }
}
