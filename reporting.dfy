/** The terminal-status write-back that both call sequencers issue for a
    job: a PATCH of `{"status": ...}` to the job's resource. The HTTP
    delivery itself runs on a background thread and is not modelled; a
    report is recorded at the point the sequencer decides to send it. */
module Reporting {

  const Completed: string := "completed"
  const Failed: string := "failed"

  /** The two statuses a job can end with. */
  predicate IsTerminalStatus(status: string) {
    status == Completed || status == Failed
  }

  /** One write-back: the job id and the status sent for it. */
  datatype Report = Report(callId: int, status: string)

  /** Every report in `sent` carries one of the two terminal statuses. */
  ghost predicate AllTerminal(sent: seq<Report>) {
    forall i :: 0 <= i < |sent| ==> IsTerminalStatus(sent[i].status)
  }

  /** The write-back window that starts at index `start` of `sent` holds at
      most one report, and none while the job's id is still `held`; every
      report is "completed" or "failed". */
  ghost predicate ReportedOnceSince(sent: seq<Report>, start: nat, held: bool) {
    && start <= |sent| <= start + 1
    && (held ==> |sent| == start)
    && AllTerminal(sent)
  }
}
