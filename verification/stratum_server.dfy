/**
 * The proxy's side towards miners: dispatching a request to its handler and
 * building the job and login-response objects.
 */
module StratumServer {
  import opened Wrappers
  import opened Stratum

  /**
   * The one handler a request is dispatched to, with the arguments the handler
   * receives. Each tag stands for one of the handler callbacks.
   */
  datatype Request =
    | Login(requestId: string, login: string, pass: string, agent: string)
    | GetJob(requestId: string)
    | Submit(requestId: string, identifier: string, jobId: string, nonce: string, result: string,
             workerNonce: string, poolNonce: string)
    | KeepAliveD(requestId: string, identifier: string)
    | UnknownMethod(requestId: string)

  /** `v` is what the parameter object holds under `key`, or empty when it has no such member. */
  predicate MemberOrEmpty(params: Tree, key: string, v: string) {
    && (key in params.values ==> v == params.values[key])
    && (key !in params.values ==> v == "")
  }

  /** The login handler's arguments: login, pass and agent, each empty when absent. */
  function ParseLogin(requestId: string, params: Tree): (r: Request)
    ensures r.Login? && r.requestId == requestId
    ensures MemberOrEmpty(params, "login", r.login) && MemberOrEmpty(params, "pass", r.pass)
    ensures MemberOrEmpty(params, "agent", r.agent)
  {
    Login(requestId, Field(params, "login"), Field(params, "pass"), Field(params, "agent"))
  }

  /** The submit handler's arguments, each empty when absent. */
  function ParseSubmit(requestId: string, params: Tree): (r: Request)
    ensures r.Submit? && r.requestId == requestId
    ensures MemberOrEmpty(params, "id", r.identifier) && MemberOrEmpty(params, "job_id", r.jobId)
    ensures MemberOrEmpty(params, "nonce", r.nonce) && MemberOrEmpty(params, "result", r.result)
    ensures MemberOrEmpty(params, "workerNonce", r.workerNonce) && MemberOrEmpty(params, "poolNonce", r.poolNonce)
  {
    Submit(requestId, Field(params, "id"), Field(params, "job_id"), Field(params, "nonce"),
           Field(params, "result"), Field(params, "workerNonce"), Field(params, "poolNonce"))
  }

  /** The keepalive handler's argument, empty when absent. */
  function ParseKeepaliveD(requestId: string, params: Tree): (r: Request)
    ensures r.KeepAliveD? && r.requestId == requestId && MemberOrEmpty(params, "id", r.identifier)
  {
    KeepAliveD(requestId, Field(params, "id"))
  }

  /**
   * Dispatch on the method name: exactly one handler is chosen, the one named by
   * the method, and every other method goes to the unknown-method handler. The
   * parameters are only parsed for the handlers that take them.
   */
  function ParseRequest(requestId: string, methodName: string, params: string, json: string -> Tree): (r: Request)
    ensures r.requestId == requestId
    ensures r.Login? <==> methodName == "login"
    ensures r.GetJob? <==> methodName == "getjob"
    ensures r.Submit? <==> methodName == "submit"
    ensures r.KeepAliveD? <==> methodName == "keepalived"
    ensures r.UnknownMethod? <==> methodName !in {"login", "getjob", "submit", "keepalived"}
  {
    if methodName == "login" then ParseLogin(requestId, json(params))
    else if methodName == "getjob" then GetJob(requestId)
    else if methodName == "submit" then ParseSubmit(requestId, json(params))
    else if methodName == "keepalived" then ParseKeepaliveD(requestId, json(params))
    else UnknownMethod(requestId)
  }

  /**
   * The job object sent to a miner. Both shapes carry `id` and `job_id`; a block
   * template carries the template members (its hexadecimal target difficulty
   * under `target_diff`) and no blob or target, a plain job carries exactly blob
   * and target.
   */
  function JobTree(job: Job): (t: Tree)
    ensures t.children == map[]
    ensures t.values.Keys == if job.IsBlockTemplate() then TemplateJobKeys else PlainJobKeys
    ensures t.values["id"] == job.id && t.values["job_id"] == job.jobId
    ensures job.IsBlockTemplate() ==>
      && t.values["blocktemplate_blob"] == job.blocktemplateBlob
      && t.values["difficulty"] == job.difficulty
      && t.values["height"] == job.height
      && t.values["reserved_offset"] == job.reservedOffset
      && t.values["client_nonce_offset"] == job.clientNonceOffset
      && t.values["client_pool_offset"] == job.clientPoolOffset
      && t.values["target_diff"] == job.targetDiffHex
    ensures !job.IsBlockTemplate() ==> t.values["blob"] == job.blob && t.values["target"] == job.target
  {
    var common := map["id" := job.id, "job_id" := job.jobId];
    if job.IsBlockTemplate() then
      Tree(common["blocktemplate_blob" := job.blocktemplateBlob]
                 ["difficulty" := job.difficulty]
                 ["height" := job.height]
                 ["reserved_offset" := job.reservedOffset]
                 ["client_nonce_offset" := job.clientNonceOffset]
                 ["client_pool_offset" := job.clientPoolOffset]
                 ["target_diff" := job.targetDiffHex],
           map[])
    else
      Tree(common["blob" := job.blob]["target" := job.target], map[])
  }

  /**
   * The result of a successful login: the session identifier, status "OK", and
   * a `job` object exactly when a job is supplied.
   */
  function LoginResponse(id: string, job: Option<Job>): (t: Tree)
    ensures t.values == map["id" := id, "status" := "OK"]
    ensures "job" in t.children <==> job.Some?
    ensures t.children.Keys <= {"job"}
    ensures job.Some? ==> t.children["job"] == JobTree(job.value)
  {
    var children := if job.Some? then map["job" := JobTree(job.value)] else map[];
    Tree(map["id" := id, "status" := "OK"], children)
  }
}
