/**
 * One miner's session with the proxy: login, job assignment with a per-job
 * announced difficulty, share validation and forwarding, and the session
 * difficulty that follows the miner's hash rate.
 */
module ProxyClient {
  import opened Wrappers
  import opened Decimal
  import opened Stratum
  import StratumServer

  /** The session identifier, in the text form a miner sends back. */
  type WorkerIdentifier = string

  type Algorithm = nat

  datatype WorkerType = Unknown | Miner | Proxy

  /** An upstream job as a client uses it: its job id, its difficulty and its protocol form. */
  datatype UpstreamJob = UpstreamJob(jobId: string, difficulty: Uint32, stratumJob: Stratum.Job)

  /** A job the client has been given, with the difficulty announced to the miner for it (0 until announced). */
  datatype JobEntry = JobEntry(job: UpstreamJob, announced: Uint32)

  /** What the client sends to its miner; turning these into JSON-RPC text is not part of this model. */
  datatype Message =
    | Response(requestId: string, result: Tree)
    | StatusResponse(requestId: string, status: string)
    | ErrorResponse(requestId: string, code: int, message: string)
    | Notification(methodName: string, params: Tree)

  /** A share handed to its upstream job for submission: job id, nonce and hash, under the miner's request id. */
  datatype Share = Share(requestId: string, jobId: string, nonce: string, hash: string)

  /**
   * What the hash-rate calculator reports once a share's hashes are added: the
   * long-window average and the seconds since it started. Both depend on the
   * clock, so they are inputs.
   */
  datatype HashRateReading = HashRateReading(longAverage: Uint32, secondsSinceStart: nat)

  /** The upstream verdict on a forwarded share. */
  datatype SubmitStatus =
    | Accepted
    | RejectedIpBanned
    | RejectedUnauthenticated
    | RejectedDuplicate
    | RejectedExpired
    | RejectedInvalidJobId
    | RejectedLowDifficultyShare

  const ProxyAgentMarker: string := "xmr-node-proxy"

  /** `std::min` on difficulties. */
  function Min(a: Uint32, b: Uint32): (m: Uint32)
    ensures m <= a && m <= b
    ensures m == a || m == b
  {
    if b < a then b else a
  }

  /** `pattern` occurs in `s` starting at position `i`. */
  predicate OccursAt(s: string, pattern: string, i: nat) {
    i + |pattern| <= |s| && s[i..i + |pattern|] == pattern
  }

  /**
   * `std::string::find` from position `from`: the first position at or after
   * `from` where `pattern` occurs, or none.
   */
  function FindFrom(s: string, pattern: string, from: nat): (r: Option<nat>)
    ensures r.Some? ==> from <= r.value && OccursAt(s, pattern, r.value)
    ensures r.Some? ==> forall i: nat :: from <= i < r.value ==> !OccursAt(s, pattern, i)
    ensures r.None? ==> forall i: nat :: from <= i ==> !OccursAt(s, pattern, i)
    decreases |s| - from
  {
    if from + |pattern| > |s| then None
    else if s[from..from + |pattern|] == pattern then Some(from)
    else FindFrom(s, pattern, from + 1)
  }

  /** A logged-in client is a chained proxy exactly when its agent mentions the proxy marker. */
  function Classify(agent: string): (t: WorkerType)
    ensures t == Proxy <==> exists i: nat :: OccursAt(agent, ProxyAgentMarker, i)
    ensures t != Unknown
  {
    var found := FindFrom(agent, ProxyAgentMarker, 0);
    if found.Some? then Proxy else Miner
  }

  /**
   * The session difficulty once enough hash-rate data exists: the long-window
   * average times the target interval, wrapped to 32 bits. Until the average is
   * non-zero and more than 10 seconds old, the current difficulty is kept.
   */
  function Retarget(current: Uint32, reading: HashRateReading, targetSeconds: Uint32): (r: Uint32)
    ensures reading.longAverage == 0 || reading.secondsSinceStart <= 10 ==> r == current
    ensures (&& reading.longAverage != 0 && reading.secondsSinceStart > 10
             && reading.longAverage * targetSeconds < 0x1_0000_0000)
            ==> r == reading.longAverage * targetSeconds
  {
    if reading.longAverage != 0 && reading.secondsSinceStart > 10 then
      (reading.longAverage * targetSeconds) % 0x1_0000_0000
    else
      current
  }

  class Client {
    const identifier: WorkerIdentifier
    const algorithm: Algorithm
    const targetSecondsBetweenSubmits: Uint32
    /** The difficulty a submitted hash meets (decoded from the hash; the decoder is not part of this model). */
    const shareDifficulty: string -> Uint32
    /** The hexadecimal target for a difficulty (the conversion is not part of this model). */
    const difficultyTarget: Uint32 -> string

    var workerType: WorkerType
    var difficulty: Uint32
    var username: string
    var password: string
    var useragent: string
    var currentJob: Option<UpstreamJob>
    var jobs: map<string, JobEntry>
    var submits: nat
    /** The hashes added to the hash-rate calculator, one entry per accepted share. */
    var hashes: seq<Uint32>
    /** Whether a connection is set; every send is dropped while there is none. */
    var connected: bool
    var outbox: seq<Message>
    /** The shares handed upstream, in order. */
    var upstream: seq<Share>

    /** The current job is always resolvable under its own job id. */
    ghost predicate Valid()
      reads this
    {
      currentJob.Some? ==> currentJob.value.jobId in jobs && jobs[currentJob.value.jobId].job == currentJob.value
    }

    /** What a send delivers: the message when connected, nothing otherwise. */
    function Sent(m: Message): seq<Message>
      reads this
    {
      if connected then [m] else []
    }

    /** The difficulty announced for a job: never above the session's nor the job's own. */
    function AnnouncedFor(job: UpstreamJob): Uint32
      reads this
    {
      Min(difficulty, job.difficulty)
    }

    /** The job as this miner sees it: the upstream job with the target of the announced difficulty. */
    function ClientView(job: UpstreamJob): Stratum.Job
      reads this
    {
      job.stratumJob.(target := difficultyTarget(AnnouncedFor(job)))
    }

    /**
     * The effect of a login: an empty login is refused with "missing login" and
     * clears the credentials; otherwise the credentials are recorded, the worker
     * type is the agent's classification, and the reply carries the session
     * identifier and, when there is a current job, that job announced.
     */
    twostate predicate LoginOutcome(requestId: string, login: string, pass: string, agent: string)
      reads this
    {
      && (login == "" ==>
            && useragent == "" && username == "" && password == ""
            && workerType == old(workerType) && jobs == old(jobs)
            && outbox == old(outbox) + Sent(ErrorResponse(requestId, -1, "missing login")))
      && (login != "" ==>
            && useragent == agent && username == login && password == pass
            && workerType == Classify(agent))
      && (login != "" && currentJob.None? ==>
            && jobs == old(jobs)
            && outbox == old(outbox) + Sent(Response(requestId, StratumServer.LoginResponse(identifier, None))))
      && (login != "" && currentJob.Some? ==>
            && jobs == old(jobs)[currentJob.value.jobId := JobEntry(currentJob.value, AnnouncedFor(currentJob.value))]
            && outbox == old(outbox)
                         + Sent(Response(requestId, StratumServer.LoginResponse(identifier, Some(ClientView(currentJob.value))))))
    }

    /** The effect of getjob: the current job announced, or "No job available". */
    twostate predicate GetJobOutcome(requestId: string)
      reads this
    {
      && (currentJob.None? ==>
            jobs == old(jobs) && outbox == old(outbox) + Sent(ErrorResponse(requestId, -1, "No job available")))
      && (currentJob.Some? ==>
            && jobs == old(jobs)[currentJob.value.jobId := JobEntry(currentJob.value, AnnouncedFor(currentJob.value))]
            && outbox == old(outbox) + Sent(Response(requestId, StratumServer.JobTree(ClientView(currentJob.value)))))
    }

    /**
     * The effect of a share. A wrong session identifier gets "Unauthenticated",
     * an unknown job id "Invalid job id", a share below the difficulty announced
     * for its job "Low difficulty share"; none of these changes a counter or
     * forwards anything. Any other share is acknowledged "OK", counted, and
     * handed upstream exactly when it also meets the job's own difficulty.
     */
    twostate predicate SubmitOutcome(requestId: string, submitter: string, jobId: string, nonce: string, result: string,
                                     reading: HashRateReading)
      reads this
    {
      && (submitter != identifier ==>
            && outbox == old(outbox) + Sent(ErrorResponse(requestId, -1, "Unauthenticated"))
            && submits == old(submits) && hashes == old(hashes) && difficulty == old(difficulty) && upstream == old(upstream))
      && (submitter == identifier && jobId !in jobs ==>
            && outbox == old(outbox) + Sent(ErrorResponse(requestId, -1, "Invalid job id"))
            && submits == old(submits) && hashes == old(hashes) && difficulty == old(difficulty) && upstream == old(upstream))
      && (submitter == identifier && jobId in jobs && shareDifficulty(result) < jobs[jobId].announced ==>
            && outbox == old(outbox) + Sent(ErrorResponse(requestId, -1, "Low difficulty share"))
            && submits == old(submits) && hashes == old(hashes) && difficulty == old(difficulty) && upstream == old(upstream))
      && (submitter == identifier && jobId in jobs && shareDifficulty(result) >= jobs[jobId].announced ==>
            && outbox == old(outbox) + Sent(StatusResponse(requestId, "OK"))
            && submits == old(submits) + 1 && hashes == old(hashes) + [jobs[jobId].announced]
            && difficulty == Retarget(old(difficulty), reading, targetSecondsBetweenSubmits)
            && upstream == old(upstream)
                           + (if shareDifficulty(result) >= jobs[jobId].job.difficulty
                              then [Share(requestId, jobId, nonce, result)] else []))
    }

    /** The effect of keepalived: "KEEPALIVED" for the session's own identifier, "Unauthenticated" otherwise. */
    twostate predicate KeepAliveOutcome(requestId: string, submitter: string)
      reads this
    {
      && (submitter != identifier ==> outbox == old(outbox) + Sent(ErrorResponse(requestId, -1, "Unauthenticated")))
      && (submitter == identifier ==> outbox == old(outbox) + Sent(StatusResponse(requestId, "KEEPALIVED")))
    }

    constructor (id: WorkerIdentifier, defaultAlgorithm: Algorithm, defaultDifficulty: Uint32,
                 targetSeconds: Uint32, shareDifficulty: string -> Uint32, difficultyTarget: Uint32 -> string)
      ensures Valid()
      ensures identifier == id && algorithm == defaultAlgorithm && targetSecondsBetweenSubmits == targetSeconds
      ensures this.shareDifficulty == shareDifficulty && this.difficultyTarget == difficultyTarget
      ensures workerType == Unknown && difficulty == defaultDifficulty
      ensures username == "" && password == "" && useragent == ""
      ensures currentJob == None && jobs == map[] && submits == 0 && hashes == []
      ensures !connected && outbox == [] && upstream == []
    {
      identifier, algorithm, targetSecondsBetweenSubmits := id, defaultAlgorithm, targetSeconds;
      this.shareDifficulty, this.difficultyTarget := shareDifficulty, difficultyTarget;
      workerType, difficulty := Unknown, defaultDifficulty;
      username, password, useragent := "", "", "";
      currentJob, jobs, submits, hashes := None, map[], 0, [];
      connected, outbox, upstream := false, [], [];
    }

    /** Attaches the connection; from now on sends reach the miner. No job is pushed. */
    method SetConnection()
      modifies this`connected
      ensures connected
    {
      connected := true;
    }

    method SendResponse(requestId: string, result: Tree)
      modifies this`outbox
      ensures outbox == old(outbox) + Sent(Response(requestId, result))
    {
      if connected {
        outbox := outbox + [Response(requestId, result)];
      }
    }

    method SendSuccessResponse(requestId: string, status: string)
      modifies this`outbox
      ensures outbox == old(outbox) + Sent(StatusResponse(requestId, status))
    {
      if connected {
        outbox := outbox + [StatusResponse(requestId, status)];
      }
    }

    method SendErrorResponse(requestId: string, message: string)
      modifies this`outbox
      ensures outbox == old(outbox) + Sent(ErrorResponse(requestId, -1, message))
    {
      if connected {
        outbox := outbox + [ErrorResponse(requestId, -1, message)];
      }
    }

    /**
     * Announces the current job: records the announced difficulty, the smaller
     * of the session's and the job's, under the job's id, and returns the job
     * carrying the matching target.
     */
    method BuildStratumJob() returns (job: Stratum.Job)
      requires Valid() && currentJob.Some?
      modifies this`jobs
      ensures Valid()
      ensures jobs == old(jobs)[currentJob.value.jobId := JobEntry(currentJob.value, AnnouncedFor(currentJob.value))]
      ensures jobs[currentJob.value.jobId].announced <= currentJob.value.difficulty
      ensures jobs[currentJob.value.jobId].announced <= difficulty
      ensures job == ClientView(currentJob.value)
    {
      var current := currentJob.value;
      var modifiedDifficulty := Min(difficulty, current.difficulty);
      var modifiedTarget := difficultyTarget(modifiedDifficulty);
      jobs := jobs[current.jobId := jobs[current.jobId].(announced := modifiedDifficulty)];
      job := current.stratumJob.(target := modifiedTarget);
    }

    /** Pushes the current job to the miner, when there is a job and a connection. */
    method SendJobNotification()
      requires Valid()
      modifies this`jobs, this`outbox
      ensures Valid()
      ensures currentJob.Some? && connected ==>
        && jobs == old(jobs)[currentJob.value.jobId := JobEntry(currentJob.value, AnnouncedFor(currentJob.value))]
        && outbox == old(outbox) + [Notification("job", StratumServer.JobTree(ClientView(currentJob.value)))]
      ensures currentJob.None? || !connected ==> jobs == old(jobs) && outbox == old(outbox)
    {
      if currentJob.Some? && connected {
        var job := BuildStratumJob();
        outbox := outbox + [Notification("job", StratumServer.JobTree(job))];
      }
    }

    /**
     * Makes a job current and resolvable under its id, keeping every other id.
     * The entry keeps the difficulty announced before for that id (0 for a new
     * id) unless the job is pushed, which needs a connection; no job changes
     * nothing.
     */
    method AssignJob(job: Option<UpstreamJob>)
      requires Valid()
      modifies this`jobs, this`currentJob, this`outbox
      ensures Valid()
      ensures job.None? ==> currentJob == old(currentJob) && jobs == old(jobs) && outbox == old(outbox)
      ensures job.Some? ==> currentJob == job
      ensures job.Some? && connected ==>
        && jobs == old(jobs)[job.value.jobId := JobEntry(job.value, AnnouncedFor(job.value))]
        && outbox == old(outbox) + [Notification("job", StratumServer.JobTree(ClientView(job.value)))]
      ensures job.Some? && !connected ==>
        && jobs == old(jobs)[job.value.jobId := JobEntry(job.value,
                                                   if job.value.jobId in old(jobs) then old(jobs)[job.value.jobId].announced else 0)]
        && outbox == old(outbox)
    {
      if job.Some? {
        var id := job.value.jobId;
        var announced := if id in jobs then jobs[id].announced else 0;
        jobs := jobs[id := JobEntry(job.value, announced)];
        currentJob := job;
        SendJobNotification();
      }
    }

    /** login, with the effect `LoginOutcome` describes. */
    method HandleLogin(requestId: string, login: string, pass: string, agent: string)
      requires Valid()
      modifies this`useragent, this`username, this`password, this`workerType, this`jobs, this`outbox
      ensures Valid()
      ensures LoginOutcome(requestId, login, pass, agent)
    {
      if login == "" {
        SendErrorResponse(requestId, "missing login");
        useragent, username, password := "", "", "";
      } else {
        useragent, username, password := agent, login, pass;
        var found := FindFrom(useragent, ProxyAgentMarker, 0);
        if found.Some? {
          workerType := Proxy;
        } else {
          workerType := Miner;
        }
        var job: Option<Stratum.Job> := None;
        if currentJob.Some? {
          var built := BuildStratumJob();
          job := Some(built);
        }
        SendResponse(requestId, StratumServer.LoginResponse(identifier, job));
      }
    }

    /** getjob, with the effect `GetJobOutcome` describes. */
    method HandleGetJob(requestId: string)
      requires Valid()
      modifies this`jobs, this`outbox
      ensures Valid()
      ensures GetJobOutcome(requestId)
    {
      if currentJob.Some? {
        var job := BuildStratumJob();
        SendResponse(requestId, StratumServer.JobTree(job));
      } else {
        SendErrorResponse(requestId, "No job available");
      }
    }

    /**
     * Counts an accepted share: one more submit, its announced difficulty added
     * to the hash-rate calculator, and the session difficulty reset from the
     * long-window average once that is non-zero and more than 10 seconds old.
     */
    method UpdateHashrates(announced: Uint32, reading: HashRateReading)
      modifies this`submits, this`hashes, this`difficulty
      ensures submits == old(submits) + 1 && hashes == old(hashes) + [announced]
      ensures reading.longAverage != 0 && reading.secondsSinceStart > 10 ==>
        difficulty == (reading.longAverage * targetSecondsBetweenSubmits) % 0x1_0000_0000
      ensures reading.longAverage == 0 || reading.secondsSinceStart <= 10 ==> difficulty == old(difficulty)
    {
      submits := submits + 1;
      hashes := hashes + [announced];
      difficulty := Retarget(difficulty, reading, targetSecondsBetweenSubmits);
    }

    /** A share from the miner, with the effect `SubmitOutcome` describes. */
    method HandleSubmit(requestId: string, submitter: string, jobId: string, nonce: string, result: string,
                        workerNonce: string, poolNonce: string, reading: HashRateReading)
      requires Valid()
      modifies this`outbox, this`submits, this`hashes, this`difficulty, this`upstream
      ensures Valid()
      ensures SubmitOutcome(requestId, submitter, jobId, nonce, result, reading)
      // a forwarded share was always acknowledged, and one that meets its job's
      // difficulty is always forwarded when the announcement did not exceed it
      ensures |upstream| != |old(upstream)| ==> outbox == old(outbox) + Sent(StatusResponse(requestId, "OK"))
      ensures submitter == identifier && jobId in jobs && jobs[jobId].announced <= jobs[jobId].job.difficulty
              && shareDifficulty(result) >= jobs[jobId].job.difficulty ==>
        upstream == old(upstream) + [Share(requestId, jobId, nonce, result)]
    {
      if submitter != identifier {
        SendErrorResponse(requestId, "Unauthenticated");
      } else if jobId in jobs {
        var resultDifficulty := shareDifficulty(result);
        var entry := jobs[jobId];
        if resultDifficulty < entry.announced {
          SendErrorResponse(requestId, "Low difficulty share");
        } else {
          SendSuccessResponse(requestId, "OK");
          UpdateHashrates(entry.announced, reading);
          if resultDifficulty >= entry.job.difficulty {
            upstream := upstream + [Share(requestId, jobId, nonce, result)];
          }
        }
      } else {
        SendErrorResponse(requestId, "Invalid job id");
      }
    }

    /** keepalived, with the effect `KeepAliveOutcome` describes. */
    method HandleKeepAliveD(requestId: string, submitter: string)
      modifies this`outbox
      ensures KeepAliveOutcome(requestId, submitter)
    {
      if submitter != identifier {
        SendErrorResponse(requestId, "Unauthenticated");
      } else {
        SendSuccessResponse(requestId, "KEEPALIVED");
      }
    }

    method HandleUnknownMethod(requestId: string)
      modifies this`outbox
      ensures outbox == old(outbox) + Sent(ErrorResponse(requestId, -1, "invalid method"))
    {
      SendErrorResponse(requestId, "invalid method");
    }

    /**
     * The upstream verdict on a forwarded share arrives after the miner was
     * already told "OK"; whatever it is, nothing changes.
     */
    method HandleUpstreamSubmitStatus(requestId: string, status: SubmitStatus)
      ensures unchanged(this)
    {
      match status
      case RejectedIpBanned =>
      case RejectedUnauthenticated =>
      case RejectedDuplicate =>
      case RejectedExpired =>
      case RejectedInvalidJobId =>
      case RejectedLowDifficultyShare =>
      case Accepted =>
    }

    /**
     * A request from the miner, dispatched to its handler: the session ends in
     * exactly the state that handler's outcome describes. Only a submit touches
     * the share counters, the session difficulty or the upstream; only a login
     * touches the credentials and the worker type.
     */
    method HandleRequest(request: StratumServer.Request, reading: HashRateReading)
      requires Valid()
      modifies this`useragent, this`username, this`password, this`workerType, this`jobs, this`outbox
      modifies this`submits, this`hashes, this`difficulty, this`upstream
      ensures Valid()
      ensures currentJob == old(currentJob)
      ensures !request.Submit? ==>
        submits == old(submits) && hashes == old(hashes) && difficulty == old(difficulty) && upstream == old(upstream)
      ensures !request.Login? ==>
        && useragent == old(useragent) && username == old(username) && password == old(password)
        && workerType == old(workerType)
      ensures request.KeepAliveD? || request.Submit? || request.UnknownMethod? ==> jobs == old(jobs)
      ensures request.Login? ==> LoginOutcome(request.requestId, request.login, request.pass, request.agent)
      ensures request.GetJob? ==> GetJobOutcome(request.requestId)
      ensures request.Submit? ==>
        SubmitOutcome(request.requestId, request.identifier, request.jobId, request.nonce, request.result, reading)
      ensures request.KeepAliveD? ==> KeepAliveOutcome(request.requestId, request.identifier)
      ensures request.UnknownMethod? ==> outbox == old(outbox) + Sent(ErrorResponse(request.requestId, -1, "invalid method"))
    {
      match request
      case Login(rid, login, pass, agent) => HandleLogin(rid, login, pass, agent);
      case GetJob(rid) => HandleGetJob(rid);
      case Submit(rid, submitter, jobId, nonce, result, workerNonce, poolNonce) =>
        HandleSubmit(rid, submitter, jobId, nonce, result, workerNonce, poolNonce, reading);
      case KeepAliveD(rid, submitter) => HandleKeepAliveD(rid, submitter);
      case UnknownMethod(rid) => HandleUnknownMethod(rid);
    }
  }
}
