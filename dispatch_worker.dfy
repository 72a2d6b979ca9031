/**
 * The dispatch worker: a queue of dispatch jobs, appended to as commands
 * arrive and drained one job per round, taking the first job in queue order
 * whose rate limit clears within one period. The limiter's answer for each
 * target is the function `wait` (ms).
 */
module DispatchWorker {
  import opened Wrappers
  import opened WorkQueue
  import NsDispatch
  import SyncRatelimiter

  /** A queued dispatch job: the nation it is posted as and what to do. */
  datatype IntermediateDispatch = IntermediateDispatch(nation: string, action: NsDispatch.Action)

  /** The answer to the command that queued a job. */
  datatype Response = Success

  /** `post_in`: a new dispatch counts as a restricted action of its nation; edits and removals as standard requests. */
  function PostTarget(dispatch: IntermediateDispatch): (target: SyncRatelimiter.Target)
    ensures target.Restricted? <==> dispatch.action.Add?
    ensures target.Restricted? ==> target.sender == dispatch.nation
    ensures !target.Restricted? ==> target.Standard?
  {
    match dispatch.action
    case Add(_, _, _, _) => SyncRatelimiter.Target.Restricted(dispatch.nation)
    case Edit(_, _, _, _, _) => SyncRatelimiter.Target.Standard
    case Remove(_, _) => SyncRatelimiter.Target.Standard
  }

  /** A job may go this round when its wait is at most one period. */
  function DueWithin(wait: SyncRatelimiter.Target -> nat): IntermediateDispatch -> bool
  {
    (dispatch: IntermediateDispatch) => wait(PostTarget(dispatch)) <= Period
  }

  class DispatchClient {
    var queue: seq<IntermediateDispatch>

    constructor ()
      ensures queue == []
    {
      queue := [];
    }

    /** The receiving branch of the run loop: the job joins the back of the queue and the sender hears Success. */
    method Enqueue(dispatch: IntermediateDispatch) returns (response: Response)
      modifies this
      ensures queue == old(queue) + [dispatch]
      ensures response == Response.Success
    {
      queue := queue + [dispatch];
      response := Response.Success;
    }

    /**
     * Removes and returns the first job, in queue order, that may go this
     * round; with none, returns None and leaves the queue as it was.
     */
    method GetAction(wait: SyncRatelimiter.Target -> nat) returns (dispatch: Option<IntermediateDispatch>)
      modifies this
      ensures dispatch.Some? ==> wait(PostTarget(dispatch.value)) <= Period
      ensures match FirstEligible(old(queue), DueWithin(wait))
        case Some(i) => dispatch == Some(old(queue)[i]) && queue == RemoveAt(old(queue), i)
        case None => dispatch == None && queue == old(queue)
    {
      var index := FindFirst(queue, DueWithin(wait));
      if index.Some? {
        dispatch := Some(queue[index.value]);
        queue := RemoveAt(queue, index.value);
      } else {
        dispatch := None;
      }
    }
  }
}
