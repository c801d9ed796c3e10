/**
 * The pause before a failover: while a candidate standby still receives WAL the
 * election is put off, but not for longer than one fail interval.
 */
module Leadership {

  datatype RaceResult = RaceResult(delay: bool, backoff: map<string, int>)

  /**
   * One decision whether to put the election off.  `backoff` records when the
   * election of a successor to each failed master was first put off.
   */
  function RaceStep(backoff: map<string, int>, failed: string, advancing: bool, window: int, now: int): RaceResult {
    if failed == "" then RaceResult(false, backoff)
    else if window <= 0 || !advancing then RaceResult(false, backoff - {failed})
    else if failed !in backoff then RaceResult(true, backoff[failed := now])
    else if now - backoff[failed] < window then RaceResult(true, backoff)
    else RaceResult(false, backoff - {failed})
  }

  /** An election is put off exactly while a candidate advances and it has not been put off for a whole window. */
  lemma RaceTable(backoff: map<string, int>, failed: string, advancing: bool, window: int, now: int)
    requires failed != ""
    ensures var r := RaceStep(backoff, failed, advancing, window, now);
            && (r.delay <==> window > 0 && advancing && (failed in backoff ==> now - backoff[failed] < window))
            && (failed in r.backoff <==> r.delay)
            && (r.delay ==> r.backoff[failed] == if failed in backoff then backoff[failed] else now)
            && (forall m :: m != failed ==> (m in r.backoff <==> m in backoff) && (m in backoff ==> r.backoff[m] == backoff[m]))
  {
  }
}
