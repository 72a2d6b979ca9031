/**
 * The rmbpost worker: a queue of board-post jobs, appended to as commands
 * arrive; each round it takes the first job whose nation's restricted-action
 * limit clears within one period, posts it, and records the outcome on the
 * job's row. The limiter's answer is `wait` (ms), the post itself is `post`
 * (the new post's id, or the error's message).
 */
module RmbpostWorker {
  import opened Wrappers
  import opened WorkQueue
  import opened NsRmbpost
  import SyncRatelimiter

  datatype Response = Success

  /** The arguments of the job-row update: job id, status, post id, error message. */
  datatype JobUpdate = JobUpdate(jobId: int, status: string, rmbpostId: Option<int>, error: Option<string>)

  /** `post_in`: every post is a restricted action of its nation. */
  function PostTarget(rmbpost: IntermediateRmbPost): (target: SyncRatelimiter.Target)
    ensures target.Restricted? && target.sender == rmbpost.nation
  {
    SyncRatelimiter.Target.Restricted(rmbpost.nation)
  }

  function DueWithin(wait: SyncRatelimiter.Target -> nat): IntermediateRmbPost -> bool
  {
    (rmbpost: IntermediateRmbPost) => wait(PostTarget(rmbpost)) <= Period
  }

  /** The status triple of a post's outcome: the error is set exactly when the status is "error". */
  function Outcome(posted: Result<int, string>): (r: (string, Option<int>, Option<string>))
    ensures r.0 in {"success", "error"}
    ensures r.0 == "success" <==> posted.Success?
    ensures r.1.Some? <==> posted.Success?
    ensures r.2.Some? <==> r.0 == "error"
    ensures posted.Success? ==> r.1 == Some(posted.value)
    ensures posted.Failure? ==> r.2 == Some(posted.error)
  {
    match posted
    case Success(id) => ("success", Some(id), None)
    case Failure(message) => ("error", None, Some(message))
  }

  class RmbPostClient {
    var queue: seq<IntermediateRmbPost>

    constructor ()
      ensures queue == []
    {
      queue := [];
    }

    /** The receiving branch of the run loop: the job joins the back of the queue and the sender hears Success. */
    method Enqueue(rmbpost: IntermediateRmbPost) returns (response: Response)
      modifies this
      ensures queue == old(queue) + [rmbpost]
      ensures response == Response.Success
    {
      queue := queue + [rmbpost];
      response := Response.Success;
    }

    /** Removes and returns the first post, in queue order, that may go this round. */
    method TryGetRmbpost(wait: SyncRatelimiter.Target -> nat) returns (rmbpost: Option<IntermediateRmbPost>)
      modifies this
      ensures match FirstEligible(old(queue), DueWithin(wait))
        case Some(i) => rmbpost == Some(old(queue)[i]) && queue == RemoveAt(old(queue), i)
        case None => rmbpost == None && queue == old(queue)
    {
      var index := FindFirst(queue, DueWithin(wait));
      if index.Some? {
        rmbpost := Some(queue[index.value]);
        queue := RemoveAt(queue, index.value);
      } else {
        rmbpost := None;
      }
    }

    /**
     * One round: posts the first eligible job and returns the one update of
     * its row, keyed by its job id; no eligible job means no update.
     */
    method TryPost(wait: SyncRatelimiter.Target -> nat, post: IntermediateRmbPost -> Result<int, string>)
      returns (update: Option<JobUpdate>)
      modifies this
      ensures match FirstEligible(old(queue), DueWithin(wait))
        case Some(i) =>
          && queue == RemoveAt(old(queue), i)
          && var (status, id, error) := Outcome(post(old(queue)[i]));
             update == Some(JobUpdate(old(queue)[i].jobId, status, id, error))
        case None => update == None && queue == old(queue)
    {
      var rmbpost := TryGetRmbpost(wait);
      if rmbpost.Some? {
        var jobId := rmbpost.value.jobId;
        var (status, id, error) := Outcome(post(rmbpost.value));
        update := Some(JobUpdate(jobId, status, id, error));
      } else {
        update := None;
      }
    }
  }
}
