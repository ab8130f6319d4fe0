/** The in-call service driven from a fresh service and a fresh status
    board: calls are added, the platform moves their states, and each
    scenario returns what the board shows. */
module InCallScenarios {
  import opened Platform
  import opened InCallService
  import SM = StatusManager

  const ConferenceStatus: string := "✅ Conference active - You are MUTED"

  /** A fresh service tracking `first` then `second`, and a fresh board
      still showing its waiting banner, with the two "detected" lines and
      the two-calls notice logged at `noticeTimestamp`. */
  method TrackTwo(first: Call, second: Call, timestamp: string, noticeTimestamp: string)
    returns (service: HardreachInCallService, board: SM.StatusManager)
    ensures fresh(service) && fresh(board) && board.Valid()
    ensures service.activeCalls == [first, second]
    ensures board.currentStatus == SM.WaitingStatus
    ensures |board.logEntries| == 3 && board.logEntries[0] == SM.LogEntry(noticeTimestamp, TwoCallsNotice)
  {
    board := new SM.StatusManager();
    service := new HardreachInCallService();
    service.OnCallAdded(first, board, timestamp, timestamp);
    service.OnCallAdded(second, board, timestamp, noticeTimestamp);
  }

  /** Two calls tracked, the second turns ACTIVE and reports it: the board
      shows the conference, logged after the two-calls notice. */
  method BothCallsActive(timestamp: string) returns (status: string, log: seq<string>)
    ensures status == ConferenceStatus
    ensures |log| == 4
    ensures log[0] == SM.LogEntry(timestamp, "✅ Conference created successfully - Microphone muted")
    ensures log[1] == SM.LogEntry(timestamp, TwoCallsNotice)
  {
    var first := new Call(1, STATE_ACTIVE);
    var second := new Call(2, STATE_DIALING);
    var service, board := TrackTwo(first, second, timestamp, timestamp);
    second.state := STATE_ACTIVE;
    assert ConferenceReady(STATE_ACTIVE, service.activeCalls);
    var name := service.HandleCallStateChange(second, STATE_ACTIVE, board, timestamp);
    status, log := board.currentStatus, board.logEntries;
  }

  /** Only one of two tracked calls is ACTIVE: the board keeps its waiting
      banner. */
  method OneCallStillDialing(timestamp: string) returns (status: string)
    ensures status == SM.WaitingStatus
  {
    var first := new Call(1, STATE_ACTIVE);
    var second := new Call(2, STATE_DIALING);
    var service, board := TrackTwo(first, second, timestamp, timestamp);
    assert !ConferenceReady(STATE_ACTIVE, service.activeCalls);
    var name := service.HandleCallStateChange(first, STATE_ACTIVE, board, timestamp);
    status := board.currentStatus;
  }

  /** A fresh service tracking three calls, and a fresh board still showing
      its waiting banner. */
  method TrackThree(a: Call, b: Call, c: Call, timestamp: string)
    returns (service: HardreachInCallService, board: SM.StatusManager)
    ensures fresh(service) && fresh(board) && board.Valid()
    ensures service.activeCalls == [a, b, c]
    ensures board.currentStatus == SM.WaitingStatus
  {
    service, board := TrackTwo(a, b, timestamp, timestamp);
    service.OnCallAdded(c, board, timestamp, timestamp);
  }

  /** A third call makes the tracked list too long for the signal even when
      every call is ACTIVE. */
  method ThirdCallBlocksSignal(timestamp: string) returns (status: string)
    ensures status == SM.WaitingStatus
  {
    var a := new Call(1, STATE_ACTIVE);
    var b := new Call(2, STATE_ACTIVE);
    var c := new Call(3, STATE_ACTIVE);
    var service, board := TrackThree(a, b, c, timestamp);
    assert !ConferenceReady(STATE_ACTIVE, service.activeCalls);
    var name := service.HandleCallStateChange(c, STATE_ACTIVE, board, timestamp);
    status := board.currentStatus;
  }

  /** Of three ACTIVE calls, the last is removed: the next ACTIVE report
      raises the signal. */
  method RemovedThirdCallRestoresSignal(timestamp: string) returns (status: string)
    ensures status == ConferenceStatus
  {
    var a := new Call(1, STATE_ACTIVE);
    var b := new Call(2, STATE_ACTIVE);
    var c := new Call(3, STATE_ACTIVE);
    var service, board := TrackThree(a, b, c, timestamp);
    service.OnCallRemoved(c);
    assert RemoveFirst([b, c], c) == [b];
    assert service.activeCalls == [a, b];
    assert ConferenceReady(STATE_ACTIVE, service.activeCalls);
    var name := service.HandleCallStateChange(b, STATE_ACTIVE, board, timestamp);
    status := board.currentStatus;
  }
}
