# Stratum mining proxy: a Dafny model of its core

The proxy sits between Monero miners and several upstream pools. Miners connect
to it over Stratum (JSON-RPC), log in, fetch jobs and submit shares; the proxy
hands out the pools' jobs at a per-miner difficulty and forwards shares that
meet the job's own difficulty upstream. A coordinator keeps the registry of
connected clients, attaches each new client to a pool that mines its algorithm,
detaches it again when it disconnects, and periodically rebalances the load by
moving workers from pools above the mean weighted hash rate to pools below it.

This project models three parts of that system and proves properties of them:

- **The Stratum layer** (`src/stratum/stratum.cpp`). The miner-side dispatch of a
  request to its handler, the job and login-response objects, the
  hand-written upstream request parameters and the parsers that route upstream
  responses to a success or an error callback. Modules `Stratum` (the JSON
  object `Tree` and the `Job` record), `StratumServer` and `StratumClient`.
  Decimal text of numbers is in module `Decimal`.
- **The client session** (`src/proxy/client.cpp`). It is modelled as class
  `ProxyClient.Client` with the session's fields: credentials, worker type,
  session difficulty, the current job, the jobs announced by id with the
  difficulty announced for each, the share counters, and the messages sent
  and the shares forwarded upstream, as sequences.
- **The coordinator** (`src/proxy/proxy.cpp`). It is modelled as class
  `Coordinator.Proxy`, with `handleNewClient`, the disconnect handler it
  installs, and `balancePoolLoads`. The pure definitions the rebalance pass
  is specified with live in module `Balance`. They cover the index of pools by
  weighted rate, the mean, the order of workers by hash rate, and the plan a
  pool above the mean sheds.

The key invariants are these:
- `Client.Valid`: the current job can always be found under its job id.
- `Proxy.Valid`: no worker is attached to two pools, or twice to one.
  Every attached worker is registered and has its disconnect handler.

Every operation states its effect on these fields. The rebalance pass is
proved to conserve workers: every worker is either attached or handed back
unplaced, and none is duplicated. It never changes a pool's configuration. A
pool at or below the mean loses no worker. A pool above the mean loses at most
what the shedding plan takes from it. When all pools are at the mean, nothing
moves.

A JSON reader is a parameter `json: string -> Tree`. An object is a map of
string values plus a map of child objects. Hash-rate readings are inputs:
- each pool's long-window average is a field of `Balance.Pool`;
- a worker's is the function `rateOf`;
- the client's own calculator reading is a `HashRateReading`.

## Model

| member | source | states |
|---|---|---|
| Decimal.DecimalString | src/stratum/stratum.cpp:179-200 | a number is written as a non-empty run of decimal digits with no leading zero |
| Decimal.ParseDecimal | src/stratum/stratum.cpp:179-200 | the digits written for a nonce read back as the same number |
| Decimal.DecimalInjective | src/stratum/stratum.cpp:179-200 | two different numbers are never written as the same text |
| Decimal.ParseInt | src/stratum/stratum.cpp:113-119 | a value read as an `int` is within the 32-bit range; white space around it is skipped, and what remains must be a digit string with an optional `+` or `-` sign |
| Decimal.ReadSigned | src/stratum/stratum.cpp:113-119 | without surrounding white space, only a digit string with an optional `+` or `-` sign, within the 32-bit range, reads as an `int` |
| Decimal.TrimStartSplits | src/stratum/stratum.cpp:113-119 | skipping leading white space drops only white space, from the front |
| Decimal.TrimEndSplits | src/stratum/stratum.cpp:113-119 | skipping trailing white space drops only white space, from the end |
| Decimal.ParseIntPadded | src/stratum/stratum.cpp:113-119 | white space before and after a value does not change the `int` read from it |
| Decimal.ParseIntOfDecimal | src/stratum/stratum.cpp:113-119 | every 32-bit integer written in decimal, with a minus sign for a negative one, reads back as itself, also with an explicit plus sign |
| Decimal.ParseSignedDigits | src/stratum/stratum.cpp:113-119 | a sign in front of digits is read as that sign, within the 32-bit range |
| StratumServer.ParseLogin | src/stratum/stratum.cpp:13-20 | the login handler gets the request id and the `login`, `pass` and `agent` members, each empty when absent |
| StratumServer.ParseSubmit | src/stratum/stratum.cpp:22-32 | the submit handler gets `id`, `job_id`, `nonce`, `result`, `workerNonce` and `poolNonce`, each empty when absent |
| StratumServer.ParseKeepaliveD | src/stratum/stratum.cpp:34-39 | the keepalive handler gets the `id` member, empty when absent |
| StratumServer.ParseRequest | src/stratum/stratum.cpp:65-89 | exactly one handler is chosen: login, getjob, submit or keepalived by the method name, and the unknown-method handler for any other name; the request id is passed on |
| StratumServer.JobTree | src/stratum/stratum.cpp:41-62 | a job object has `id` and `job_id`. A block template has exactly the template members, with the hexadecimal target difficulty under `target_diff`. A plain job has exactly `blob` and `target`. |
| StratumServer.LoginResponse | src/stratum/stratum.cpp:91-101 | the login result is the session id with status "OK", and a `job` object exactly when a job is supplied |
| StratumClient.CreateLoginRequest | src/stratum/stratum.cpp:134-143 | no contract of its own: `LoginRequestRoundTrip` and `LoginRequestAmbiguous` state what the text it writes reads back as |
| StratumClient.LoginRequestRoundTrip | src/stratum/stratum.cpp:134-143 | a login request with quote-free fields reads back as the same login, password and agent |
| StratumClient.LoginRequestAmbiguous | src/stratum/stratum.cpp:134-143 | the fields are not escaped: two different credential triples give the same request text |
| StratumClient.CreateKeepalivedParams | src/stratum/stratum.cpp:217-224 | no contract of its own: `KeepalivedRoundTrip` states that its text reads back as the same session id |
| StratumClient.KeepalivedRoundTrip | src/stratum/stratum.cpp:217-224 | the keepalive parameters read back as the same session id |
| StratumClient.CreateSubmitParams | src/stratum/stratum.cpp:179-200 | no contract of its own: `SubmitParamsRoundTrip` and `NoncesRoundTrip` state what its text reads back as |
| StratumClient.NoncesRoundTrip | src/stratum/stratum.cpp:179-200 | each optional nonce is written exactly when supplied, workerNonce first, and reads back as the same number |
| StratumClient.SubmitParamsRoundTrip | src/stratum/stratum.cpp:179-200 | submit parameters with quote-free strings read back as the same four strings and the same optional nonces |
| StratumClient.ParseError | src/stratum/stratum.cpp:113-119 | the error callback gets the `code` member read as an `int` (-1 when it is absent or not an `int`) and the `message` member |
| StratumClient.ParseJob | src/stratum/stratum.cpp:121-130 | no contract of its own: `ParseJobTree` and `JobTreeReparsed` state what it reads from a job object the proxy writes |
| StratumClient.ParseJobTree | src/stratum/stratum.cpp:121-130 | a plain job object reads back as the same id, job id, blob and target with every template member empty. A block template reads back with its template members, but blob and target come back empty and the hexadecimal target difficulty lands in `targetDiff`. |
| StratumClient.JobTreeReparsed | src/stratum/stratum.cpp:121-130 | writing, reading and writing again gives the same object for a plain job, and for a block template exactly when its hexadecimal target difficulty is empty |
| StratumClient.ParseLoginResponse | src/stratum/stratum.cpp:145-163 | a non-empty error goes to the error callback, and only then. Otherwise the success callback gets the `id` and a job exactly when the result has a `job` member: an object is read as a job, and a plain value as a job with every field empty. |
| StratumClient.LoginResponseRoundTrip | src/stratum/stratum.cpp:145-163 | a login result the proxy writes for its miners reads back as the same id, with a job exactly when one was written, that job read back as `ParseJobTree` describes |
| StratumClient.ParseGetJobResponse | src/stratum/stratum.cpp:165-177 | a non-empty error goes to the error callback, and only then; otherwise the result is read as a job |
| StratumClient.ParseSubmitResponse | src/stratum/stratum.cpp:202-215 | a non-empty error goes to the error callback, and only then; otherwise the success callback gets the `status` member |
| StratumClient.ParseNotification | src/stratum/stratum.cpp:226-233 | a job comes out exactly for the method "job", read from the parameters |
| ProxyClient.Min | src/proxy/client.cpp:391-405 | the smaller of two difficulties: at most both, and equal to one of them |
| ProxyClient.FindFrom | src/proxy/client.cpp:167-174 | the first position at or after `from` where the pattern occurs, or none when it occurs nowhere there |
| ProxyClient.Classify | src/proxy/client.cpp:167-174 | an agent is a PROXY exactly when it contains "xmr-node-proxy", and a MINER otherwise; never UNKNOWN |
| ProxyClient.Client.constructor | src/proxy/client.cpp:18-24 | a new session has its id, algorithm, difficulty and target interval, type UNKNOWN, no credentials, no job, no connection, and nothing sent or counted |
| ProxyClient.Client.SetConnection | src/proxy/client.cpp:31-47 | after a connection is set, sends reach the miner |
| ProxyClient.Client.SendResponse | src/proxy/client.cpp:357-363 | a result is delivered when connected, otherwise dropped |
| ProxyClient.Client.SendSuccessResponse | src/proxy/client.cpp:365-371 | a status result is delivered when connected, otherwise dropped |
| ProxyClient.Client.SendErrorResponse | src/proxy/client.cpp:373-379 | an error with code -1 is delivered when connected, otherwise dropped |
| ProxyClient.Client.BuildStratumJob | src/proxy/client.cpp:391-405 | the current job is announced at the smaller of the session's and the job's difficulty, which is recorded under its job id. The job returned carries that difficulty's target. |
| ProxyClient.Client.SendJobNotification | src/proxy/client.cpp:381-389 | with a job and a connection, the job is announced and a "job" notification carrying it is sent; otherwise nothing changes |
| ProxyClient.Client.AssignJob | src/proxy/client.cpp:64-77 | a job becomes current and can be found under its id, and is pushed to the miner when connected. Without a connection the entry keeps the difficulty announced before for that id. No job changes nothing. |
| ProxyClient.Client.HandleLogin | src/proxy/client.cpp:145-189 | an empty login is refused with "missing login" and clears the credentials. Otherwise the credentials are kept, the worker type is the agent's classification, and the reply carries the session id and the announced current job, if any. |
| ProxyClient.Client.HandleGetJob | src/proxy/client.cpp:191-203 | the reply is the announced current job, or "No job available" when there is none |
| ProxyClient.Retarget | src/proxy/client.cpp:338-342 | the difficulty is kept until the long-window average is non-zero and more than 10 seconds old; then it is that average times the target interval, which is exact while the product fits in 32 bits |
| ProxyClient.Client.UpdateHashrates | src/proxy/client.cpp:333-355 | one more submit and its announced difficulty counted. The session difficulty is reset to the long-window average times the target interval, wrapped to 32 bits, once that average is non-zero and older than 10 seconds; otherwise it is kept. |
| ProxyClient.Client.HandleSubmit | src/proxy/client.cpp:205-261 | a wrong session id, an unknown job id and a share below the announced difficulty are each refused with their own message, and change no counter. Any other share is acknowledged "OK", counted, and forwarded upstream exactly when it meets the job's own difficulty. A forwarded share was always acknowledged. |
| ProxyClient.Client.HandleKeepAliveD | src/proxy/client.cpp:263-274 | "KEEPALIVED" for the session's own id, "Unauthenticated" otherwise |
| ProxyClient.Client.HandleUnknownMethod | src/proxy/client.cpp:276-279 | the reply is the error "invalid method" |
| ProxyClient.Client.HandleUpstreamSubmitStatus | src/proxy/client.cpp:281-320 | whatever the upstream verdict, the session does not change |
| ProxyClient.Client.HandleRequest | src/proxy/client.cpp:105-134 | a request goes to its handler, and the session ends in exactly that handler's outcome (`LoginOutcome`, `GetJobOutcome`, `SubmitOutcome`, `KeepAliveOutcome`); an unknown method only sends the error "invalid method". Only a submit touches the counters, the difficulty or the upstream; only a login touches the credentials and the type. |
| Balance.MeanBounds | src/proxy/proxy.cpp:146 | the mean is the truncated quotient: mean × count ≤ total weighted rate < (mean + 1) × count |
| Balance.MeanOfBalanced | src/proxy/proxy.cpp:146 | when every pool has the same weighted rate, the mean is that rate |
| Balance.Put | src/proxy/proxy.cpp:136 | storing under a rate keeps the keys ascending and unique: the entries are the old ones of other rates plus the new one |
| Balance.IndexOfStep | src/proxy/proxy.cpp:129-136 | indexing one more pool stores its weighted rate under its position |
| Balance.IndexOfSound | src/proxy/proxy.cpp:129-136 | every entry of the index is a pool's weighted rate and position, for a pool no later pool shares its rate with |
| Balance.IndexOfComplete | src/proxy/proxy.cpp:129-136 | every pool no later pool shares its rate with is in the index |
| Balance.IndexOfSameConfig | src/proxy/proxy.cpp:129-136 | moving workers between pools does not change the index |
| Balance.IndexPositionsDistinct | src/proxy/proxy.cpp:159 | no position is indexed twice, so the pass visits each pool at most once |
| Balance.PositionsSound | src/proxy/proxy.cpp:136 | every indexed position is a pool that no later pool shadows |
| Balance.InsertByRate | src/proxy/proxy.cpp:180 | holding a worker adds exactly that worker to the held workers |
| Balance.InsertKeepsDescending | src/proxy/proxy.cpp:180 | the held workers stay ordered from the highest hash rate down |
| Balance.InsertPointRates | src/proxy/proxy.cpp:180 | a held worker goes after every held worker with a rate at least its own and before the first with a lower rate |
| Balance.InsertAfterEqual | src/proxy/proxy.cpp:180 | a held worker is inserted at that point, after the workers of equal rate |
| Balance.SortedByRate | src/proxy/proxy.cpp:169 | a pool's workers sorted: the same workers, from the highest hash rate down |
| Balance.Positive | src/proxy/proxy.cpp:173 | the workers with a positive hash rate |
| Balance.Shed | src/proxy/proxy.cpp:166-189 | no contract of its own: `ShedIsPositivePrefix`, `ShedStopsOnceCovered`, `ShedCoversExcess` and `ShedWithin` state what a pool sheds |
| Balance.ShedIsPositivePrefix | src/proxy/proxy.cpp:170-187 | what a pool sheds is a prefix, in walk order, of its workers with a positive rate |
| Balance.ShedStopsOnceCovered | src/proxy/proxy.cpp:177-186 | the walk stops as soon as the excess is covered: all shed workers but the last have a total rate below the excess |
| Balance.ShedCoversExcess | src/proxy/proxy.cpp:177-186 | what a pool sheds covers its excess, or is every worker with a positive rate |
| Balance.ShedWithin | src/proxy/proxy.cpp:166-189 | a pool sheds only its own workers, each at most once |
| Balance.RemoveAllCounts | src/proxy/proxy.cpp:175 | removing the shed workers from a pool leaves the rest, with nothing lost or duplicated |
| Balance.InsertAllCounts | src/proxy/proxy.cpp:180 | holding the shed workers adds exactly them, keeping the held workers ordered by rate |
| Balance.ShedCounts | src/proxy/proxy.cpp:166-189 | after one pool's walk, its remaining workers plus the shed ones are its old workers, and the held workers gained exactly the shed ones, in rate order |
| Balance.ShedOutcome | src/proxy/proxy.cpp:159-195 | shedding does not change the index; when every pool is at the mean nothing is shed |
| Balance.BalancedShedsNothing | src/proxy/proxy.cpp:159-193 | when all pools are at the mean, no pool is above it and no worker is held |
| Balance.PassOutcome | src/proxy/proxy.cpp:159-245 | after shedding, refilling and placing leftovers, no configuration has changed and a pool not indexed is untouched. A pool at or below the mean has kept its workers in order, and a pool above it has lost at most what it sheds. |
| Balance.DetachAll | src/proxy/proxy.cpp:89 | detaching a worker everywhere removes it from every pool's list and changes nothing else |
| Balance.AttachedDetachAll | src/proxy/proxy.cpp:89 | after detaching everywhere, the worker is attached nowhere and every other worker's count is kept |
| Balance.Without | src/proxy/proxy.cpp:89 | a pool's workers without one worker: that worker gone, every other kept |
| Coordinator.Proxy.AddWorker | src/proxy/pool.hpp:45 | a pool either refuses and nothing changes, or appends the worker to its list |
| Coordinator.Proxy.RemoveWorker | src/proxy/proxy.cpp:89 | a worker is detached from one pool, reporting whether it had been attached there |
| Coordinator.Proxy.HandleNewClient | src/proxy/proxy.cpp:42-97 | a client is always registered. The pools are reordered, and the client is attached to exactly one pool of its own algorithm or to none. The disconnect handler is installed exactly when a pool accepted it. The invariant is kept. |
| Coordinator.Proxy.DetachEverywhere | src/proxy/proxy.cpp:89 | the worker is removed from every pool and nothing else changes |
| Coordinator.Proxy.HandleDisconnect | src/proxy/proxy.cpp:85-91 | with its handler installed, a client is detached from every pool and dropped from the registry; without, nothing happens; the invariant is kept |
| Coordinator.Proxy.Inspect | src/proxy/proxy.cpp:129-146 | the loop builds the rate index of the pools and the mean of their weighted rates |
| Coordinator.Proxy.ShedWalk | src/proxy/proxy.cpp:170-188 | the walk removes exactly what the pool sheds, and holds it in rate order |
| Coordinator.Proxy.ShedExcess | src/proxy/proxy.cpp:166-189 | one pool gives up exactly what it sheds, into the held workers, in rate order. Only that pool's workers change, and no worker is lost or duplicated. |
| Coordinator.Proxy.ShedPool | src/proxy/proxy.cpp:161-191 | a pool above the mean sheds its excess, scaled back up by its weight; any other pool is left alone |
| Coordinator.Proxy.ShedOverloaded | src/proxy/proxy.cpp:159-195 | every indexed pool above the mean has shed its plan, every other pool is as it was, and every shed worker is held in rate order |
| Coordinator.Proxy.AttachHeld | src/proxy/proxy.cpp:219-222 | a held worker accepted by a pool leaves the held workers and joins that pool; a refusal changes nothing |
| Coordinator.Proxy.RefillPool | src/proxy/proxy.cpp:205-229 | a pool below the mean gains only held workers, each fitting the remaining deficit, with a total below its deficit; the rest stay held |
| Coordinator.Proxy.RefillUnderloaded | src/proxy/proxy.cpp:200-230 | only indexed pools below the mean gain workers, each less than its deficit in total; with nothing held nothing changes |
| Coordinator.Proxy.OfferToPools | src/proxy/proxy.cpp:237-243 | the worker is offered to the indexed pools in index order; it is attached to the pool at which the offers stopped, every earlier one having refused, or, when all refused, it stays held and nothing changes |
| Coordinator.Proxy.PlaceLeftovers | src/proxy/proxy.cpp:232-245 | leftover workers are only added to indexed pools. Those no pool accepts are returned, and none is lost or duplicated. |
| Coordinator.Proxy.Redistribute | src/proxy/proxy.cpp:153-230 | shedding then refilling: the pools are in the shed state and then the refill state, and every worker is attached or held. When all pools are at the mean, nothing moves. |
| Coordinator.Proxy.BalancePoolLoads | src/proxy/proxy.cpp:114-246 | with at most one pool nothing happens. Otherwise, every worker ends attached or unplaced and the pass bounds hold. When all pools are at the mean, nothing moves. The invariant is kept. |

## Left out

- The JSON text format is not modelled. Reading text into a property tree is a parameter `json: string -> Tree`. Writing one back to text is not modelled: the builders return the tree.
- The JSON-RPC framing of `net::jsonrpc::parse` is not part of this model. `ProxyClient.Client.HandleRequest` starts from the request id, method and parameters it yields. Responses and notifications a miner sends back are only logged, so they are left out.
- Logging, `updateName`, the getters and the worker-type accessors are not modelled; they change no state the model has. `addPool` and `addServer` (`src/proxy/proxy.cpp:25-40`) only configure the proxy: `addPool` connects a pool, appends it to the pool list and arms the load-balancer timer; `addServer` starts a server and appends it to the server list, without touching the timer. The model takes the pool list as given, and the timer, which calls `balancePoolLoads` periodically, is left out with the other I/O.
- Locks and threads are left out. `balancePoolLoads` runs its shedding tasks in parallel; the model runs them one after another, in index order. Each task touches only its own pool and appends to the shared multimap under a lock. The order of the held workers is fixed by rate, and among equal rates by arrival. So only the arrival order of equal-rate workers from different pools can differ.
- Coordinator.Proxy.ShedWalk works on a copy of the pool's worker list, and the pool is updated once, at the end of the walk. The source removes each worker from the pool as it goes. No other step reads that pool in between, so the outcome is the same.
- Coordinator.Proxy.BalancePoolLoads does not model 32-bit arithmetic, because the model's integers are unbounded:
  - the unsigned totals and mean;
  - the signed excess;
  - the unsigned deficit.
  Totals above 2^32 would wrap in the source.
- Coordinator.Proxy.BalancePoolLoads states bounds on each pool (what it keeps, gains or loses) rather than its exact final list. Which pool accepts a worker is nondeterministic in this model.
- Coordinator.Proxy.BalancePoolLoads: the pass itself does not compare algorithms. Whether a pool refuses a worker, for instance one of another algorithm, is decided inside `Pool::addWorker`, which the model takes as the nondeterministic acceptance of `Coordinator.Proxy.AddWorker`.
- Coordinator.Proxy.OfferToPools: "first" means first in index order. The pools before the accepting one were each offered the worker and refused it, but since refusal is a nondeterministic choice the model cannot say why.
- Coordinator.Proxy.PlaceLeftovers: a worker no pool accepts is returned as unplaced. It stays registered, with its disconnect handler, as in the source.
- Coordinator.Proxy.AddWorker: `Pool::addWorker` (pool.cpp) is not part of this model. Whether a pool accepts a worker is a nondeterministic choice; on acceptance the worker is appended.
- Coordinator.Proxy.HandleNewClient:
  - The pool order comes from sorting with a floating-point comparator that is not a strict weak ordering. The model takes the order as any reordering `sorted` of the pools.
  - It does not state that the earlier pools of the client's algorithm refused it, because refusal is nondeterministic.
  - It requires that a new client's id is not yet attached; client ids are unique per connection.
- Coordinator.Proxy.HandleDisconnect models the handler installed by `handleNewClient` (`src/proxy/proxy.cpp:85-91`), which `Client::handleDisconnect` (`src/proxy/client.cpp:136-143`) calls. Disconnecting the previous connection in `setConnection` is left out.
- Balance.IndexOfSound: pools whose weighted rate equals a later pool's are replaced in the rate index, as the map assignment in the source does. Such a pool is never shed from or refilled, but it counts toward the mean.
- Balance.SortedByRate: `Pool::getWorkersSortedByHashrateDescending` (pool.cpp) is not part of this model. It is taken as a stable sort from the highest hash rate down, with equal rates in attachment order.
- Balance.Pool: a pool's weight is taken as a positive integer (`Balance.Weight`). The source divides a pool's hash rate by its weight without a guard (`src/proxy/proxy.cpp:134`) and multiplies the signed excess by it (`src/proxy/proxy.cpp:168`), but the weight's type is not part of this model's sources. So a zero weight, which would divide by zero, and a fractional weight are excluded. Hash-rate readings (`Balance.Pool.hashRate`, `rateOf`, `ProxyClient.HashRateReading.longAverage`) are likewise taken as non-negative integers, because the type `getAverageHashRateLongTimeWindow()` returns is not shown.
- Hash-rate readings are inputs: a pool's long-window average, a worker's average and the client calculator's reading. The calculator itself (`util::HashRateCalculator`) is not part of this model.
- ProxyClient.Client.HandleSubmit: decoding a share's difficulty from its hash (`JobResult`, jobresult.hpp) is a function field `shareDifficulty`. Turning a difficulty into a hexadecimal target is the function field `difficultyTarget`.
- Stratum.Job: the job record in `src/stratum/job.hpp:17-22` takes `job_id` twice, once for the job identifier and once more as its last argument. The model keeps one field.
- Stratum.Job: job.cpp is not part of this model. `isBlockTemplate` is taken to mean that the job carries a block-template blob.
- StratumClient.LoginRequestRoundTrip holds only for fields without a double quote, and so do KeepalivedRoundTrip and SubmitParamsRoundTrip. The builders insert the strings without escaping, and `StratumClient.LoginRequestAmbiguous` exhibits two different logins that give the same text.
- ProxyClient.Client.SetConnection: `connected` never becomes false again. The source holds the connection as a `weak_ptr` and drops a send once the connection has gone away (`src/proxy/client.cpp:357-379`); the model does not track the connection's lifetime.
- ProxyClient.Client.HandleUpstreamSubmitStatus does nothing for any verdict. The source's error replies for rejected shares are commented out: the miner was already told "OK".
