/** The in-call service (HardreachInCallService): the platform hands it every
    call the device places or receives; it keeps the list of calls it was
    given, names each reported state, and raises "both calls active" on
    the status board once exactly two tracked calls are both ACTIVE. */
module InCallService {
  import opened Platform
  import StatusManager

  /** A live platform call: its identity and its current state, which the
      telephony stack updates behind the service's back. */
  class Call {
    const id: nat
    var state: int

    constructor (id: nat, state: int)
      ensures this.id == id && this.state == state
    {
      this.id := id;
      this.state := state;
    }
  }

  const UnknownStateName: string := "UNKNOWN"
  const TwoCallsNotice: string := "2 calls detected - waiting for accessibility service to merge"

  /** The six call states the service gives a name. */
  predicate IsKnownState(state: int) {
    state == STATE_NEW || state == STATE_DIALING || state == STATE_RINGING ||
    state == STATE_ACTIVE || state == STATE_HOLDING || state == STATE_DISCONNECTED
  }

  /** The state code a name stands for, if any: the reading of StateName. */
  function StateCode(name: string): Option<int> {
    if name == "NEW" then Some(STATE_NEW)
    else if name == "DIALING" then Some(STATE_DIALING)
    else if name == "RINGING" then Some(STATE_RINGING)
    else if name == "ACTIVE" then Some(STATE_ACTIVE)
    else if name == "HOLDING" then Some(STATE_HOLDING)
    else if name == "DISCONNECTED" then Some(STATE_DISCONNECTED)
    else None
  }

  /** The name logged for a reported state; total, with UNKNOWN for every
      code outside the six known ones. A known state's name reads back as
      that state. */
  function StateName(state: int): (name: string)
    ensures name == UnknownStateName <==> !IsKnownState(state)
    ensures IsKnownState(state) ==> StateCode(name) == Some(state)
    ensures !IsKnownState(state) ==> StateCode(name) == None
  {
    if state == STATE_NEW then "NEW"
    else if state == STATE_DIALING then "DIALING"
    else if state == STATE_RINGING then "RINGING"
    else if state == STATE_ACTIVE then "ACTIVE"
    else if state == STATE_HOLDING then "HOLDING"
    else if state == STATE_DISCONNECTED then "DISCONNECTED"
    else UnknownStateName
  }

  /** Every name that reads back as a state is the name of that state, so
      distinct known states have distinct names. */
  lemma StateNameInjective(name: string)
    requires StateCode(name).Some?
    ensures IsKnownState(StateCode(name).value)
    ensures StateName(StateCode(name).value) == name
  {
  }

  /** The number of calls in `calls` whose current state is ACTIVE. */
  function CountActive(calls: seq<Call>): (n: nat)
    reads calls
    ensures n <= |calls|
    ensures n == |calls| <==> forall i :: 0 <= i < |calls| ==> calls[i].state == STATE_ACTIVE
    ensures n == 0 <==> forall i :: 0 <= i < |calls| ==> calls[i].state != STATE_ACTIVE
  {
    if calls == [] then 0
    else (if calls[0].state == STATE_ACTIVE then 1 else 0) + CountActive(calls[1..])
  }

  /** Whether a state report `state` raises "both calls active": the
      reported state is ACTIVE, exactly two calls are tracked, and both of
      them are ACTIVE now. */
  function ConferenceReady(state: int, calls: seq<Call>): (r: bool)
    reads calls
    ensures r <==> state == STATE_ACTIVE && |calls| == 2 &&
                   calls[0].state == STATE_ACTIVE && calls[1].state == STATE_ACTIVE
  {
    state == STATE_ACTIVE && |calls| == 2 && CountActive(calls) == 2
  }

  /** The position of the first occurrence of `call` in `calls`. */
  function FirstIndex(calls: seq<Call>, call: Call): (k: nat)
    requires call in calls
    ensures k < |calls| && calls[k] == call && call !in calls[..k]
  {
    if calls[0] == call then 0 else 1 + FirstIndex(calls[1..], call)
  }

  /** `calls` with its first occurrence of `call` taken out (Kotlin's
      MutableList.remove); unchanged when `call` is not tracked. */
  function RemoveFirst(calls: seq<Call>, call: Call): (r: seq<Call>)
    ensures call !in calls ==> r == calls
    ensures call in calls ==> |r| == |calls| - 1
  {
    if calls == [] then []
    else if calls[0] == call then calls[1..]
    else [calls[0]] + RemoveFirst(calls[1..], call)
  }

  /** The occurrence RemoveFirst takes out is the first one, and the calls
      before it and after it keep their order. */
  lemma {:induction false} RemoveFirstAt(calls: seq<Call>, call: Call)
    requires call in calls
    ensures RemoveFirst(calls, call) ==
            calls[..FirstIndex(calls, call)] + calls[FirstIndex(calls, call) + 1..]
  {
    if calls[0] != call {
      var tail := calls[1..];
      assert call in tail;
      RemoveFirstAt(tail, call);
      var k := FirstIndex(tail, call);
      assert FirstIndex(calls, call) == k + 1;
      assert RemoveFirst(calls, call) == [calls[0]] + (tail[..k] + tail[k + 1..]);
      assert calls[..k + 1] == [calls[0]] + tail[..k];
      assert calls[k + 2..] == tail[k + 1..];
      assert [calls[0]] + (tail[..k] + tail[k + 1..]) == ([calls[0]] + tail[..k]) + tail[k + 1..];
    }
  }

  /** Removing takes out exactly one occurrence of a tracked call and
      loses nothing else. */
  lemma {:induction false} RemoveFirstCount(calls: seq<Call>, call: Call)
    ensures multiset(RemoveFirst(calls, call)) == multiset(calls) - multiset{call}
  {
    if calls != [] {
      var tail := calls[1..];
      assert calls == [calls[0]] + tail;
      assert multiset(calls) == multiset{calls[0]} + multiset(tail);
      if calls[0] != call {
        RemoveFirstCount(tail, call);
        assert RemoveFirst(calls, call) == [calls[0]] + RemoveFirst(tail, call);
      }
    }
  }

  class HardreachInCallService {
    var activeCalls: seq<Call>

    constructor ()
      ensures activeCalls == []
    {
      activeCalls := [];
    }

    /** Tracks a new call and logs the new total; a second notice is logged
        exactly when this call brings the total to two. Each log line is
        stamped when it is written, so the two lines carry their own
        stamps, `timestamp` and `noticeTimestamp`. */
    method OnCallAdded(call: Call, board: StatusManager.StatusManager, timestamp: string, noticeTimestamp: string)
      requires board.Valid()
      modifies this`activeCalls, board`logEntries
      ensures board.Valid()
      ensures activeCalls == old(activeCalls) + [call]
      ensures |activeCalls| == |old(activeCalls)| + 1
      ensures var detected := StatusManager.Prepended(old(board.logEntries),
                StatusManager.LogEntry(timestamp, "Call detected - Total calls: " + DecimalString(|activeCalls|)));
              board.logEntries ==
                if |activeCalls| == 2
                then StatusManager.Prepended(detected, StatusManager.LogEntry(noticeTimestamp, TwoCallsNotice))
                else detected
    {
      activeCalls := activeCalls + [call];
      board.Log("Call detected - Total calls: " + DecimalString(|activeCalls|), timestamp);
      if |activeCalls| == 2 {
        board.Log(TwoCallsNotice, noticeTimestamp);
      }
    }

    /** Stops tracking one occurrence of `call`. */
    method OnCallRemoved(call: Call)
      modifies this`activeCalls
      ensures activeCalls == RemoveFirst(old(activeCalls), call)
    {
      activeCalls := RemoveFirst(activeCalls, call);
    }

    /** Names the reported state and, when both tracked calls are ACTIVE,
        shows "conference active" on the board; otherwise the board is left
        as it was. */
    method HandleCallStateChange(call: Call, state: int, board: StatusManager.StatusManager, timestamp: string)
      returns (stateName: string)
      requires board.Valid()
      modifies board
      ensures board.Valid()
      ensures stateName == StateName(state)
      ensures ConferenceReady(state, activeCalls) ==>
        board.currentStatus == "✅ Conference active - You are MUTED" &&
        board.logEntries == StatusManager.Prepended(old(board.logEntries),
          StatusManager.LogEntry(timestamp, "✅ Conference created successfully - Microphone muted"))
      ensures !ConferenceReady(state, activeCalls) ==>
        board.currentStatus == old(board.currentStatus) && board.logEntries == old(board.logEntries)
    {
      stateName := StateName(state);
      if state == STATE_ACTIVE && |activeCalls| == 2 {
        var activeCount := CountActive(activeCalls);
        if activeCount == 2 {
          board.ConferenceCreated(timestamp);
        }
      }
    }

    /** Forgets every tracked call. */
    method OnDestroy()
      modifies this`activeCalls
      ensures activeCalls == []
    {
      activeCalls := [];
    }
  }
}
