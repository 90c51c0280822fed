/**
 * The proxy's side towards an upstream pool: the request parameters it writes
 * by hand, and the parsers that route each response or notification to the
 * success or the error callback.
 */
module StratumClient {
  import opened Wrappers
  import opened Decimal
  import opened Stratum
  import StratumServer

  /** A string with no double-quote character: inserting it between quotes needs no escaping. */
  predicate NoQuote(s: string) {
    forall i :: 0 <= i < |s| ==> s[i] != '"'
  }

  // ---------------------------------------------------------------------------
  // Hand-written request parameters. The inserted strings are not escaped.
  // ---------------------------------------------------------------------------

  function CreateLoginRequest(login: string, pass: string, agent: string): string {
    "{\"login\":\"" + login + "\",\"pass\":\"" + pass + "\",\"agent\":\"" + agent + "\"}"
  }

  function CreateKeepalivedParams(id: string): string {
    "{\"id\":\"" + id + "\"}"
  }

  /** `,"<key>":<n>` when the optional number is present, nothing otherwise. */
  function OptionalNumber(key: string, n: Option<Uint32>): string {
    if n.Some? then ",\"" + key + "\":" + DecimalString(n.value) else ""
  }

  function CreateSubmitParams(id: string, jobId: string, nonce: string, result: string,
                              workerNonce: Option<Uint32>, poolNonce: Option<Uint32>): string
  {
    "{\"id\":\"" + (id + ("\",\"job_id\":\"" + (jobId + ("\",\"nonce\":\"" + (nonce
      + ("\",\"result\":\"" + (result + ("\""
      + (OptionalNumber("workerNonce", workerNonce) + (OptionalNumber("poolNonce", poolNonce)
      + "}"))))))))))
  }

  // ---------------------------------------------------------------------------
  // Readers for the texts above, the partners of the round-trip lemmas.
  // ---------------------------------------------------------------------------

  /** What follows the literal `lit` at the start of `s`, if `s` starts with it. */
  function Expect(lit: string, s: string): (r: Option<string>)
    ensures r.Some? ==> lit + r.value == s
  {
    if |lit| <= |s| && s[..|lit|] == lit then
      assert s[..|lit|] + s[|lit|..] == s;
      Some(s[|lit|..])
    else None
  }

  lemma ExpectOf(lit: string, t: string)
    ensures Expect(lit, lit + t) == Some(t)
  {
    assert (lit + t)[..|lit|] == lit;
    assert (lit + t)[|lit|..] == t;
  }

  /** The characters before the first double quote of `s`, and the rest from that quote on. */
  function UntilQuote(s: string): (r: Option<(string, string)>)
    ensures r.Some? ==> NoQuote(r.value.0) && r.value.0 + r.value.1 == s
    ensures r.Some? ==> |r.value.1| > 0 && r.value.1[0] == '"'
  {
    if s == [] then None
    else if s[0] == '"' then Some(([], s))
    else
      match UntilQuote(s[1..])
      case None => None
      case Some(p) =>
        PrependKept(s, p.0, p.1);
        Some(([s[0]] + p.0, p.1))
  }

  /** Putting back the first character of `s`, which is not a quote, in front of a quote-free split of the rest. */
  lemma PrependKept(s: string, a: string, b: string)
    requires s != [] && s[0] != '"' && NoQuote(a) && a + b == s[1..]
    ensures NoQuote([s[0]] + a) && ([s[0]] + a) + b == s
  {
    assert ([s[0]] + a) + b == [s[0]] + (a + b);
    assert [s[0]] + s[1..] == s;
  }

  lemma {:induction false} UntilQuoteOf(v: string, t: string)
    requires NoQuote(v) && |t| > 0 && t[0] == '"'
    ensures UntilQuote(v + t) == Some((v, t))
  {
    if v == [] {
      assert v + t == t;
    } else {
      assert (v + t)[1..] == v[1..] + t;
      UntilQuoteOf(v[1..], t);
      assert [v[0]] + v[1..] == v;
    }
  }

  /** The literal `lit`, then a string up to the next quote: the string and the rest from the quote on. */
  function ReadQuoted(lit: string, s: string): Option<(string, string)> {
    var rest :- Expect(lit, s);
    UntilQuote(rest)
  }

  lemma ReadQuotedOf(lit: string, v: string, t: string)
    requires NoQuote(v) && |t| > 0 && t[0] == '"'
    ensures ReadQuoted(lit, lit + (v + t)) == Some((v, t))
  {
    ExpectOf(lit, v + t);
    UntilQuoteOf(v, t);
  }

  datatype LoginFields = LoginFields(login: string, pass: string, agent: string)

  function ReadLoginRequest(s: string): Option<LoginFields> {
    var login :- ReadQuoted("{\"login\":\"", s);
    var pass :- ReadQuoted("\",\"pass\":\"", login.1);
    var agent :- ReadQuoted("\",\"agent\":\"", pass.1);
    if agent.1 == "\"}" then Some(LoginFields(login.0, pass.0, agent.0)) else None
  }

  /** The login request is read back exactly when no inserted string holds a quote. */
  lemma LoginRequestRoundTrip(login: string, pass: string, agent: string)
    requires NoQuote(login) && NoQuote(pass) && NoQuote(agent)
    ensures ReadLoginRequest(CreateLoginRequest(login, pass, agent)) == Some(LoginFields(login, pass, agent))
  {
    var a, b, c, d := "{\"login\":\"", "\",\"pass\":\"", "\",\"agent\":\"", "\"}";
    var t2 := c + (agent + d);
    var t1 := b + (pass + t2);
    assert CreateLoginRequest(login, pass, agent) == a + (login + t1);
    ReadQuotedOf(a, login, t1);
    ReadQuotedOf(b, pass, t2);
    ReadQuotedOf(c, agent, d);
  }

  /**
   * Without escaping, different credentials can produce the same request: a
   * login holding `","pass":"` is indistinguishable from a shorter login and a
   * longer password.
   */
  lemma LoginRequestAmbiguous()
    ensures CreateLoginRequest("x\",\"pass\":\"y", "z", "a") == CreateLoginRequest("x", "y\",\"pass\":\"z", "a")
    ensures "x\",\"pass\":\"y" != "x"
  {
  }

  function ReadKeepalivedParams(s: string): Option<string> {
    var id :- ReadQuoted("{\"id\":\"", s);
    if id.1 == "\"}" then Some(id.0) else None
  }

  /** The keepalive parameters are read back exactly when the identifier holds no quote. */
  lemma KeepalivedRoundTrip(id: string)
    requires NoQuote(id)
    ensures ReadKeepalivedParams(CreateKeepalivedParams(id)) == Some(id)
  {
    assert CreateKeepalivedParams(id) == "{\"id\":\"" + (id + "\"}");
    ReadQuotedOf("{\"id\":\"", id, "\"}");
  }

  /**
   * Reads an optional `,"<key>":<digits>`: absent when `s` does not start with
   * the key, a failure when the key has no digits after it.
   */
  function ReadOptionalNumber(key: string, s: string): Option<(Option<nat>, string)> {
    match Expect(",\"" + key + "\":", s)
    case None => Some((None, s))
    case Some(rest) =>
      var (digits, after) := TakeDigits(rest);
      if digits == [] then None else Some((Some(ParseDigits(digits)), after))
  }

  lemma ReadOptionalNumberOf(key: string, n: Option<Uint32>, t: string)
    requires t == [] || !IsDigit(t[0])
    requires n.None? ==> Expect(",\"" + key + "\":", t).None?
    ensures ReadOptionalNumber(key, OptionalNumber(key, n) + t)
         == Some((if n.Some? then Some(n.value as nat) else None, t))
  {
    if n.Some? {
      var lit := ",\"" + key + "\":";
      var d := DecimalString(n.value);
      assert OptionalNumber(key, n) + t == lit + (d + t);
      ExpectOf(lit, d + t);
      TakeDigitsOf(d, t);
      ParseDecimal(n.value);
    } else {
      assert OptionalNumber(key, n) + t == t;
    }
  }

  datatype SubmitFields = SubmitFields(id: string, jobId: string, nonce: string, result: string,
                                       workerNonce: Option<nat>, poolNonce: Option<nat>)

  /** Reads the optional nonces after the result and the closing brace. */
  function ReadNonces(s: string): Option<(Option<nat>, Option<nat>)> {
    var worker :- ReadOptionalNumber("workerNonce", s);
    var pool :- ReadOptionalNumber("poolNonce", worker.1);
    if pool.1 == "}" then Some((worker.0, pool.0)) else None
  }

  lemma NoncesRoundTrip(workerNonce: Option<Uint32>, poolNonce: Option<Uint32>)
    ensures ReadNonces(OptionalNumber("workerNonce", workerNonce) + (OptionalNumber("poolNonce", poolNonce) + "}"))
         == Some((if workerNonce.Some? then Some(workerNonce.value as nat) else None,
                  if poolNonce.Some? then Some(poolNonce.value as nat) else None))
  {
    var p := OptionalNumber("poolNonce", poolNonce);
    if poolNonce.Some? {
      assert (p + "}")[0] == ',' && (p + "}")[2] == 'p';
    }
    ReadOptionalNumberOf("workerNonce", workerNonce, p + "}");
    ReadOptionalNumberOf("poolNonce", poolNonce, "}");
  }

  function ReadSubmitParams(s: string): Option<SubmitFields> {
    var id :- ReadQuoted("{\"id\":\"", s);
    var jobId :- ReadQuoted("\",\"job_id\":\"", id.1);
    var nonce :- ReadQuoted("\",\"nonce\":\"", jobId.1);
    var result :- ReadQuoted("\",\"result\":\"", nonce.1);
    var r4 :- Expect("\"", result.1);
    var nonces :- ReadNonces(r4);
    Some(SubmitFields(id.0, jobId.0, nonce.0, result.0, nonces.0, nonces.1))
  }

  /**
   * The submit parameters are read back exactly: the four strings (when they
   * hold no quote), and each nonce present exactly when it was supplied, in the
   * order workerNonce then poolNonce.
   */
  lemma SubmitParamsRoundTrip(id: string, jobId: string, nonce: string, result: string,
                              workerNonce: Option<Uint32>, poolNonce: Option<Uint32>)
    requires NoQuote(id) && NoQuote(jobId) && NoQuote(nonce) && NoQuote(result)
    ensures ReadSubmitParams(CreateSubmitParams(id, jobId, nonce, result, workerNonce, poolNonce))
         == Some(SubmitFields(id, jobId, nonce, result,
                              if workerNonce.Some? then Some(workerNonce.value as nat) else None,
                              if poolNonce.Some? then Some(poolNonce.value as nat) else None))
  {
    var a, b, c, d, e := "{\"id\":\"", "\",\"job_id\":\"", "\",\"nonce\":\"", "\",\"result\":\"", "\"";
    var tail := OptionalNumber("workerNonce", workerNonce) + (OptionalNumber("poolNonce", poolNonce) + "}");
    var t3 := d + (result + (e + tail));
    var t2 := c + (nonce + t3);
    var t1 := b + (jobId + t2);
    assert CreateSubmitParams(id, jobId, nonce, result, workerNonce, poolNonce) == a + (id + t1);
    ReadQuotedOf(a, id, t1);
    ReadQuotedOf(b, jobId, t2);
    ReadQuotedOf(c, nonce, t3);
    ReadQuotedOf(d, result, e + tail);
    ExpectOf(e, tail);
    NoncesRoundTrip(workerNonce, poolNonce);
  }

  // ---------------------------------------------------------------------------
  // Response and notification parsers.
  // ---------------------------------------------------------------------------

  /** The callback a response or notification is routed to, with its arguments. */
  datatype Callback =
    | Failed(code: int, message: string)
    | LoggedIn(id: string, job: Option<Job>)
    | GotJob(received: Job)
    | Submitted(status: string)

  /**
   * The error callback's arguments: the `code` member read as an `int` (-1 when
   * absent or not an `int`) and the `message` member (empty when absent).
   */
  function ParseError(error: string, json: string -> Tree): (r: Callback)
    ensures r.Failed?
    ensures var t := json(error);
      && ("code" !in t.values ==> r.code == -1)
      && ("code" in t.values && ParseInt(t.values["code"]).Some? ==> r.code == ParseInt(t.values["code"]).value)
      && ("code" in t.values && ParseInt(t.values["code"]).None? ==> r.code == -1)
      && r.message == Field(t, "message")
  {
    var tree := json(error);
    var code := if "code" in tree.values && ParseInt(tree.values["code"]).Some?
                then ParseInt(tree.values["code"]).value else -1;
    Failed(code, Field(tree, "message"))
  }

  /** A job read from a job object: every member absent from the object reads as empty. */
  function ParseJob(tree: Tree): Job {
    Job(Field(tree, "id"), Field(tree, "job_id"), Field(tree, "blob"), Field(tree, "target"),
        Field(tree, "blocktemplate_blob"), Field(tree, "difficulty"), Field(tree, "height"),
        Field(tree, "reserved_offset"), Field(tree, "client_nonce_offset"), Field(tree, "client_pool_offset"),
        Field(tree, "target_diff"), Field(tree, "target_diff_hex"))
  }

  /**
   * What a job object written by the miner side reads back as. A plain job
   * keeps its id, job id, blob and target and loses every template member; a
   * block template keeps its template members but its hexadecimal target
   * difficulty, written under `target_diff`, comes back as `targetDiff`, and
   * `targetDiffHex`, blob and target come back empty.
   */
  lemma ParseJobTree(job: Job)
    ensures !job.IsBlockTemplate() ==>
      ParseJob(StratumServer.JobTree(job))
        == job.(difficulty := "", height := "", reservedOffset := "", clientNonceOffset := "",
                clientPoolOffset := "", targetDiff := "", targetDiffHex := "")
    ensures job.IsBlockTemplate() ==>
      ParseJob(StratumServer.JobTree(job))
        == job.(blob := "", target := "", targetDiff := job.targetDiffHex, targetDiffHex := "")
  {
    var t := StratumServer.JobTree(job);
    if job.IsBlockTemplate() {
      assert t.values.Keys == TemplateJobKeys;
    } else {
      assert t.values.Keys == PlainJobKeys;
    }
  }

  /**
   * Writing a job object, reading it and writing it again gives the same object
   * for a plain job; for a block template it does exactly when its hexadecimal
   * target difficulty is empty.
   */
  lemma JobTreeReparsed(job: Job)
    ensures !job.IsBlockTemplate() ==>
      StratumServer.JobTree(ParseJob(StratumServer.JobTree(job))) == StratumServer.JobTree(job)
    ensures job.IsBlockTemplate() ==>
      (StratumServer.JobTree(ParseJob(StratumServer.JobTree(job))) == StratumServer.JobTree(job)
       <==> job.targetDiffHex == "")
  {
    ParseJobTree(job);
    var t := StratumServer.JobTree(job);
    var again := StratumServer.JobTree(ParseJob(t));
    if job.IsBlockTemplate() && job.targetDiffHex != "" {
      assert again.values["target_diff"] == "" != t.values["target_diff"];
    }
  }

  /**
   * A login response goes to the error callback exactly when the error text is
   * non-empty. Otherwise a job is passed on exactly when the result has a `job`
   * member of any kind: an object is read as a job, and a plain value, which
   * has no members, reads as a job whose every field is empty.
   */
  function ParseLoginResponse(result: string, error: string, json: string -> Tree): (r: Callback)
    ensures r.Failed? <==> error != ""
    ensures error != "" ==> r == ParseError(error, json)
    ensures error == "" ==>
      && r.LoggedIn?
      && r.id == Field(json(result), "id")
      && (r.job.Some? <==> "job" in json(result).children || "job" in json(result).values)
      && ("job" in json(result).children ==> r.job == Some(ParseJob(json(result).children["job"])))
      && ("job" !in json(result).children && "job" in json(result).values ==>
            r.job == Some(Job("", "", "", "", "", "", "", "", "", "", "", "")))
  {
    if error != "" then ParseError(error, json)
    else
      var tree := json(result);
      var job :=
        if "job" in tree.children then Some(ParseJob(tree.children["job"]))
        else if "job" in tree.values then Some(ParseJob(Tree(map[], map[])))
        else None;
      LoggedIn(Field(tree, "id"), job)
  }

  /**
   * A login response the miner side built is read back with its identifier, and
   * with a job exactly when it was sent one.
   */
  lemma LoginResponseRoundTrip(id: string, job: Option<Job>, result: string, json: string -> Tree)
    requires json(result) == StratumServer.LoginResponse(id, job)
    ensures ParseLoginResponse(result, "", json)
         == LoggedIn(id, if job.Some? then Some(ParseJob(StratumServer.JobTree(job.value))) else None)
  {
  }

  /** A getjob response goes to the error callback exactly when the error text is non-empty. */
  function ParseGetJobResponse(result: string, error: string, json: string -> Tree): (r: Callback)
    ensures r.Failed? <==> error != ""
    ensures error != "" ==> r == ParseError(error, json)
    ensures error == "" ==> r.GotJob? && r.received == ParseJob(json(result))
  {
    if error != "" then ParseError(error, json) else GotJob(ParseJob(json(result)))
  }

  /** A submit response goes to the error callback exactly when the error text is non-empty. */
  function ParseSubmitResponse(result: string, error: string, json: string -> Tree): (r: Callback)
    ensures r.Failed? <==> error != ""
    ensures error != "" ==> r == ParseError(error, json)
    ensures error == "" ==> r.Submitted? && r.status == Field(json(result), "status")
  {
    if error != "" then ParseError(error, json) else Submitted(Field(json(result), "status"))
  }

  /** Only a `job` notification reaches the new-job callback; every other method is ignored. */
  function ParseNotification(methodName: string, params: string, json: string -> Tree): (r: Option<Job>)
    ensures r.Some? <==> methodName == "job"
    ensures r.Some? ==> r.value == ParseJob(json(params))
  {
    if methodName == "job" then Some(ParseJob(json(params))) else None
  }
}
