/** Whole jobs driven through CallManager from a fresh manager, with the
    handler running each posted runnable at its turn and the platform
    answering as stated. Each scenario returns the write-backs issued and
    the numbers dialled. */
module Scenarios {
  import opened Platform
  import opened Reporting
  import opened CallManager

  /** The in-call service sees the current call ACTIVE on a busy line. */
  const BothUp: Telephony := Telephony(true, true, Some(STATE_ACTIVE), CALL_STATE_OFFHOOK, Merged)

  /** Auto-accept, from the first leg connecting to the merge: the contact
      is dialled, its leg comes up on the first poll, and the job is
      written back "completed". */
  method AutoFromConnected(m: CallManager, callId: int, contact: string)
    requires m.Valid() && m.autoAcceptMode
    requires m.currentCallId == Some(callId) && m.nextSerial == 2
    requires m.onFirstCallConnected == Some(ConnectedHook(callId, contact))
    modifies m
    ensures m.sent == old(m.sent) + [Report(callId, Completed)]
    ensures m.dialed == old(m.dialed) + [contact]
  {
    m.OnFirstCallConnected();
    m.SecondStepFires(Runnable(2, SecondStep(callId, contact), SecondStepDelayMs));
    m.PollTickFires(Runnable(3, PollTick(callId, 0), PollIntervalMs), BothUp);
    m.MergeStepFires(Runnable(4, MergeStep(callId), MergeDelayMs), BothUp);
  }

  /** Auto-accept, both parties answer: the team member then the contact
      are dialled and the job is written back "completed" once. */
  method AutoAcceptConference(callId: int, team: string, contact: string)
    returns (sent: seq<Report>, dialed: seq<string>)
    ensures sent == [Report(callId, Completed)]
    ensures dialed == [team, contact]
  {
    var m := new CallManager();
    m.InitiateConferenceCall(callId, team, contact, true);
    AutoFromConnected(m, callId, contact);
    sent, dialed := m.sent, m.dialed;
  }

  /** The team member does not answer within 60 s: only the team member is
      dialled and the job is written back "failed". */
  method FirstCallUnanswered(callId: int, team: string, contact: string)
    returns (sent: seq<Report>, dialed: seq<string>)
    ensures sent == [Report(callId, Failed)]
    ensures dialed == [team]
  {
    var m := new CallManager();
    m.InitiateConferenceCall(callId, team, contact, true);
    var noAnswer := Telephony(false, true, None, CALL_STATE_OFFHOOK, Merged);
    m.FirstCallTimeoutFires(Runnable(0, FirstCallTimeout(callId), FirstCallTimeoutMs), noAnswer);
    sent, dialed := m.sent, m.dialed;
  }

  /** The 60 s first-call timer runs after the first party answered: it does
      nothing, and the job later completes normally. */
  method FirstCallTimerAfterAnswer(callId: int, team: string, contact: string)
    returns (sent: seq<Report>, dialed: seq<string>)
    ensures sent == [Report(callId, Completed)]
    ensures dialed == [team, contact]
  {
    var m := new CallManager();
    m.InitiateConferenceCall(callId, team, contact, true);
    m.FirstCallTimeoutFires(Runnable(0, FirstCallTimeout(callId), FirstCallTimeoutMs), BothUp);
    AutoFromConnected(m, callId, contact);
    sent, dialed := m.sent, m.dialed;
  }

  /** Manual mode, first step declined: nothing is dialled and nothing is
      written back. */
  method FirstStepDeclined(callId: int, team: string, contact: string)
    returns (sent: seq<Report>, dialed: seq<string>, prompts: seq<Prompt>)
    ensures sent == [] && dialed == []
    ensures prompts == [Prompt(FirstCallStep, callId)]
  {
    var m := new CallManager();
    m.InitiateConferenceCall(callId, team, contact, false);
    m.OnDeclined();
    sent, dialed, prompts := m.sent, m.dialed, m.prompts;
  }

  /** Manual mode up to the second confirmation: the first step accepted,
      the team member dialled and connected, the second step shown. */
  method ManualUpToSecondStep(callId: int, team: string, contact: string) returns (m: CallManager)
    ensures fresh(m) && m.Valid()
    ensures !m.autoAcceptMode && m.currentCallId == Some(callId) && m.nextSerial == 3
    ensures m.pending == {Runnable(1, OverallTimeout(callId), OverallTimeoutMs)}
    ensures m.sent == [] && m.dialed == [team]
    ensures m.prompts == [Prompt(FirstCallStep, callId), Prompt(SecondCallStep, callId)]
    ensures m.onSecondCallAccepted == Some(SecondAcceptHook(callId, contact))
    ensures m.onDeclined == Some(FailThenCleanup(callId))
  {
    m := new CallManager();
    m.InitiateConferenceCall(callId, team, contact, false);
    m.OnFirstCallAccepted();
    m.OnFirstCallConnected();
    m.SecondStepFires(Runnable(2, SecondStep(callId, contact), SecondStepDelayMs));
  }

  /** Manual mode, first step accepted and second declined: only the team
      member is dialled and the job is written back "failed". */
  method SecondStepDeclined(callId: int, team: string, contact: string)
    returns (sent: seq<Report>, dialed: seq<string>, prompts: seq<Prompt>)
    ensures sent == [Report(callId, Failed)] && dialed == [team]
    ensures prompts == [Prompt(FirstCallStep, callId), Prompt(SecondCallStep, callId)]
  {
    var m := ManualUpToSecondStep(callId, team, contact);
    m.OnDeclined();
    sent, dialed, prompts := m.sent, m.dialed, m.prompts;
  }

  /** Manual mode, both calls accepted and the merge declined: the job is
      still written back "completed", since both calls are up. */
  method MergeDeclined(callId: int, team: string, contact: string)
    returns (sent: seq<Report>, dialed: seq<string>, prompts: seq<Prompt>)
    ensures sent == [Report(callId, Completed)] && dialed == [team, contact]
    ensures prompts == [Prompt(FirstCallStep, callId), Prompt(SecondCallStep, callId), Prompt(MergeConfirmStep, callId)]
  {
    var m := ManualUpToSecondStep(callId, team, contact);
    m.OnSecondCallAccepted();
    m.PollTickFires(Runnable(3, PollTick(callId, 0), PollIntervalMs), BothUp);
    m.OnDeclined();
    sent, dialed, prompts := m.sent, m.dialed, m.prompts;
  }

  /** The line goes IDLE while the contact is being polled: the job is
      written back "failed" and no merge is attempted. */
  method CallsEndBeforeMerge(callId: int, team: string, contact: string)
    returns (sent: seq<Report>, dialed: seq<string>)
    ensures sent == [Report(callId, Failed)]
    ensures dialed == [team, contact]
  {
    var m := new CallManager();
    m.InitiateConferenceCall(callId, team, contact, true);
    m.OnFirstCallConnected();
    m.SecondStepFires(Runnable(2, SecondStep(callId, contact), SecondStepDelayMs));
    var ended := Telephony(true, true, None, CALL_STATE_IDLE, Merged);
    m.PollTickFires(Runnable(3, PollTick(callId, 0), PollIntervalMs), ended);
    sent, dialed := m.sent, m.dialed;
  }

  /** Manual mode, the 180 s timer runs while the second confirmation is
      still shown: the job is written back "failed", but cleanup leaves the
      gate's callbacks installed, so a later accept still dials the contact
      and starts a poll for a job that has ended. */
  method LateAcceptAfterTimeout(callId: int, team: string, contact: string)
    returns (sent: seq<Report>, dialed: seq<string>, pending: set<Runnable>)
    ensures sent == [Report(callId, Failed)]
    ensures dialed == [team, contact]
    ensures pending == {Runnable(3, PollTick(callId, 0), PollIntervalMs)}
  {
    var m := ManualUpToSecondStep(callId, team, contact);
    m.OverallTimeoutFires(Runnable(1, OverallTimeout(callId), OverallTimeoutMs));
    m.OnSecondCallAccepted();
    sent, dialed, pending := m.sent, m.dialed, m.pending;
  }

  /** One manager, a second job started while the first is still under
      way: the first job's 180 s timer, left posted, runs inside the second
      job's window. It writes back "failed" for the first job, releases the
      held id and clears every runnable, so the second job gets no
      write-back of its own. */
  method OverlappingJobs(first: int, second: int, team: string, contact: string)
    returns (sent: seq<Report>, heldId: Option<int>, pending: set<Runnable>)
    ensures sent == [Report(first, Failed)]
    ensures heldId == None && pending == {}
  {
    var m := new CallManager();
    m.InitiateConferenceCall(first, team, contact, true);
    m.InitiateConferenceCall(second, team, contact, true);
    m.OverallTimeoutFires(Runnable(1, OverallTimeout(first), OverallTimeoutMs));
    sent, heldId, pending := m.sent, m.currentCallId, m.pending;
  }
}
