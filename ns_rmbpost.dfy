/**
 * Regional message board posts: the queued job, and the private-command
 * request sent for it, which moves from Unprepared (mode Prepare, no token)
 * to Prepared (mode Execute, with the token the API handed out).
 */
module NsRmbpost {
  import opened Wrappers
  import NsTypes

  /** A queued post: the job row it belongs to and what to post where. */
  datatype IntermediateRmbPost = IntermediateRmbPost(jobId: int, nation: string, region: string, text: string)

  /** The request record; `state` stands for the marker type parameter. */
  datatype RmbPost = RmbPost(
    command: string,
    nation: string,
    region: string,
    text: string,
    mode: NsTypes.Mode,
    token: Option<string>,
    state: NsTypes.State)

  function NewIntermediate(jobId: int, nation: string, region: string, text: string): (p: IntermediateRmbPost)
    ensures p.jobId == jobId && p.nation == nation && p.region == region && p.text == text
  {
    IntermediateRmbPost(jobId, nation, region, text)
  }

  /** A fresh request: command "rmbpost", mode Prepare, no token, Unprepared. */
  function New(nation: string, region: string, text: string): (p: RmbPost)
    ensures p.command == NsTypes.SerializeCommand(NsTypes.RmbPost) && p.mode == NsTypes.Prepare
    ensures p.token.None? && p.state == NsTypes.Unprepared
    ensures p.nation == nation && p.region == region && p.text == text
  {
    RmbPost.RmbPost("rmbpost", nation, region, text, NsTypes.Prepare, None, NsTypes.Unprepared)
  }

  /** The second step: same post, mode Execute, carrying the token. Only an Unprepared request can be prepared. */
  function Prepare(p: RmbPost, token: string): (q: RmbPost)
    requires p.state == NsTypes.Unprepared
    ensures q.command == p.command && q.nation == p.nation && q.region == p.region && q.text == p.text
    ensures q.mode == NsTypes.Execute && q.token == Some(token) && q.state == NsTypes.Prepared
  {
    p.(mode := NsTypes.Execute, token := Some(token), state := NsTypes.Prepared)
  }

  /** `nation()`: the nation a request posts as, in either state. */
  function Nation(p: RmbPost): (n: string)
    ensures n == p.nation
  {
    p.nation
  }

  /** `From<IntermediateRmbPost>`: the post's nation, region and text; the job id stays behind. */
  function FromIntermediate(i: IntermediateRmbPost): (p: RmbPost)
    ensures p == New(i.nation, i.region, i.text)
  {
    New(i.nation, i.region, i.text)
  }

  /** Preparing keeps the nation, and a converted job's request posts as the job's nation. */
  lemma NationStable(i: IntermediateRmbPost, token: string)
    ensures Nation(FromIntermediate(i)) == i.nation
    ensures Nation(Prepare(FromIntermediate(i), token)) == Nation(FromIntermediate(i))
  {
  }

  /** The job id never reaches the request: jobs differing only in id give the same request. */
  lemma JobIdDiscarded(i: IntermediateRmbPost, jobId: int)
    ensures FromIntermediate(i.(jobId := jobId)) == FromIntermediate(i)
  {
  }
}
