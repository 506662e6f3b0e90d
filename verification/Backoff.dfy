/** The fixed retry schedule: one, five and fifteen minutes, one hour, six hours. */
module Backoff {
  import opened Wrappers
  import opened PaymentCore

  const BACKOFF_SCHEDULE: seq<Time> := [60 * SECOND, 300 * SECOND, 900 * SECOND, 3600 * SECOND, 21600 * SECOND]

  const MAX_ATTEMPTS: nat := 6

  /** The delay after the attempt just recorded, or none once the schedule is exhausted. */
  function NextBackoff(attemptsMade: nat): Option<Time> {
    if attemptsMade == 0 then Some(0)
    else if attemptsMade - 1 < |BACKOFF_SCHEDULE| then Some(BACKOFF_SCHEDULE[attemptsMade - 1])
    else None
  }

  /** The delays scheduled after the first `n` failures, together. */
  function Waited(n: nat): Time {
    if n == 0 then 0
    else Waited(n - 1) + if n <= |BACKOFF_SCHEDULE| then BACKOFF_SCHEDULE[n - 1] else 0
  }

  /** The delays in seconds, in numbers, and how long they add up to. */
  lemma DelaysAre(failures: nat)
    ensures NextBackoff(failures)
         == if failures == 0 then Some(0)
            else if failures < 6 then Some([60, 300, 900, 3600, 21600][failures - 1] * 1_000_000)
            else None
    ensures failures < 6 ==> Waited(failures) == [0, 60, 360, 1260, 4860, 26460][failures] * 1_000_000
  {
    if failures < 6 {
      assert Waited(0) == 0 && Waited(1) == 60 * SECOND && Waited(2) == 360 * SECOND;
      assert Waited(3) == 1260 * SECOND && Waited(4) == 4860 * SECOND && Waited(5) == 26460 * SECOND;
    }
  }

  /** The schedule gives out exactly at the sixth failure, 26460 seconds in. */
  lemma ScheduleGivesOut(attemptsMade: nat)
    ensures NextBackoff(attemptsMade).None? <==> attemptsMade >= 6 == MAX_ATTEMPTS
    ensures NextBackoff(attemptsMade).Some? && attemptsMade > 0 ==>
      NextBackoff(attemptsMade).value > 0
      && Waited(attemptsMade) == Waited(attemptsMade - 1) + NextBackoff(attemptsMade).value
    ensures Waited(MAX_ATTEMPTS - 1) == 26460 * SECOND
  {
    DelaysAre(attemptsMade);
    DelaysAre(MAX_ATTEMPTS - 1);
  }
}
