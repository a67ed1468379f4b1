/** The activity-log card (src/components/dashboard/activity-log.tsx):
    which logs it shows for a `limit`. */
module ActivityLogList {
  import opened Seqs
  import opened Types

  /** The `limit` prop's default. */
  const DefaultLimit: int := 5

  /** `limit ? logs.slice(0, limit) : logs` for an integer limit (absent
      means 5). Zero is falsy and shows every log; a negative limit counts
      back from the end, as `slice` does. */
  function DisplayLogs(logs: seq<ActivityLog>, limit: Option<int>): (r: seq<ActivityLog>)
    ensures r <= logs
    ensures limit.GetOr(DefaultLimit) == 0 ==> r == logs
    ensures limit.GetOr(DefaultLimit) > 0 ==> |r| == if limit.GetOr(DefaultLimit) < |logs| then limit.GetOr(DefaultLimit) else |logs|
    ensures limit.GetOr(DefaultLimit) < 0 ==> |r| == if |logs| + limit.GetOr(DefaultLimit) > 0 then |logs| + limit.GetOr(DefaultLimit) else 0
  {
    var k := limit.GetOr(DefaultLimit);
    if k == 0 then logs
    else if k > 0 then Take(logs, k)
    else if |logs| + k > 0 then logs[..|logs| + k]
    else []
  }

  /** Without a limit at most the first five logs show; the empty message
      shows exactly when there are no logs. */
  lemma DefaultShowsFirstFive(logs: seq<ActivityLog>)
    ensures |DisplayLogs(logs, None)| <= 5 && DisplayLogs(logs, None) <= logs
    ensures DisplayLogs(logs, None) == [] <==> logs == []
  {
  }

  /** For any non-negative limit the empty message shows exactly when there
      are no logs. */
  lemma EmptyMessageExactlyWhenNoLogs(logs: seq<ActivityLog>, limit: int)
    requires limit >= 0
    ensures DisplayLogs(logs, Some(limit)) == [] <==> logs == []
  {
  }
}
