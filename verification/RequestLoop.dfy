/**
 The retry loops around upstream calls.  Upstream, the scheduler and the clock are an adversary:
 `World` answers every question in any way it likes.  What a request does is recorded in a log of
 actions, and the log is what the results are about.
 */
module RequestLoop {
  import opened Text
  import opened Chunks
  import opened Relay
  import opened StreamReports

  // ---------- the log ----------

  datatype Action =
    | Acquire(key: string)
    | Call(key: string)
    | Cool(key: string)
    | Kill(key: string)
    | Release(key: string)
    | Send(attempt: nat)   // the translator of this attempt has sent events to the client

  datatype Lease = Free | Holds(key: string) | Misused

  /** A key is used and released only by its holder, and a second one is never acquired meanwhile. */
  function LeaseAfter(l: Lease, a: Action): Lease {
    match a
    case Acquire(key) => if l.Free? then Holds(key) else Misused
    case Release(key) => if l == Holds(key) then Free else Misused
    case Send(_) => l
    case _ => if l == Holds(a.key) then l else Misused
  }

  function LeaseOf(log: seq<Action>): Lease {
    if log == [] then Free else LeaseAfter(LeaseOf(log[..|log| - 1]), log[|log| - 1])
  }

  function Acquires(log: seq<Action>): nat {
    if log == [] then 0 else Acquires(log[..|log| - 1]) + (if log[|log| - 1].Acquire? then 1 else 0)
  }

  function Releases(log: seq<Action>): nat {
    if log == [] then 0 else Releases(log[..|log| - 1]) + (if log[|log| - 1].Release? then 1 else 0)
  }

  function Calls(log: seq<Action>): nat {
    if log == [] then 0 else Calls(log[..|log| - 1]) + (if log[|log| - 1].Call? then 1 else 0)
  }

  function Sends(log: seq<Action>): seq<nat> {
    if log == [] then [] else Sends(log[..|log| - 1]) + (if log[|log| - 1].Send? then [log[|log| - 1].attempt] else [])
  }

  lemma OneMore(log: seq<Action>, a: Action)
    ensures LeaseOf(log + [a]) == LeaseAfter(LeaseOf(log), a)
    ensures Acquires(log + [a]) == Acquires(log) + (if a.Acquire? then 1 else 0)
    ensures Releases(log + [a]) == Releases(log) + (if a.Release? then 1 else 0)
    ensures Calls(log + [a]) == Calls(log) + (if a.Call? then 1 else 0)
    ensures Sends(log + [a]) == Sends(log) + (if a.Send? then [a.attempt] else [])
  {
    assert (log + [a])[..|log|] == log;
  }

  /** A log that ends without a lease has released every key that it acquired, and each of them once. */
  lemma {:induction false} FreeMeansReleased(log: seq<Action>)
    ensures LeaseOf(log) == Free ==> Acquires(log) == Releases(log)
    ensures LeaseOf(log).Holds? ==> Acquires(log) == Releases(log) + 1
  {
    if log != [] {
      FreeMeansReleased(log[..|log| - 1]);
    }
  }

  // ---------- the world ----------

  datatype Acquisition = Got(key: string) | QueueTimeout | SchedulerError

  /** What one upstream call comes to: a transport error, or an answer, which may be an empty completion. */
  datatype Reply = Broken(transient: bool) | Answer(status: int, empty: bool, hasBody: bool)

  /**
   `cut(i, j)` says that the backoff after call j of attempt i is cut short because the client has
   gone; `stream(i)` is what the relay does to the translator of attempt i.
   */
  datatype World = World(
    cancelled: nat -> bool,
    acquire: nat -> Acquisition,
    reply: (nat, nat) -> Reply,
    cut: (nat, nat) -> bool,
    stream: nat -> Relayed)

  datatype Policy = Terminal | Transient | RateLimited | AuthRejected

  /** classifyUpstreamStatusCode */
  function StatusPolicy(status: int): Policy {
    if status == 429 then RateLimited
    else if status == 401 || status == 403 then AuthRejected
    else if status >= 500 then Transient
    else Terminal
  }

  /** Failures after which a cut backoff leaves the loop; for a transient status it leaves only the switch. */
  predicate LeavesWhenCut(r: Reply) {
    match r
    case Broken(transient) => transient
    case Answer(status, empty, _) => 200 <= status < 400 && empty
  }

  function PolicyOf(r: Reply): Policy {
    if LeavesWhenCut(r) then Transient
    else match r
      case Broken(_) => Terminal
      case Answer(status, _, _) => StatusPolicy(status)
  }

  /** Whether call j is the last of its attempt. */
  predicate Stops(w: World, i: nat, j: nat, budget: nat) {
    var r := w.reply(i, j);
    !PolicyOf(r).Transient? || j + 1 >= budget || (LeavesWhenCut(r) && w.cut(i, j))
  }

  /** The index of the last call of an attempt that has come to call j. */
  function LastCall(w: World, i: nat, j: nat, budget: nat): nat
    decreases budget - j
  {
    if Stops(w, i, j, budget) then j else LastCall(w, i, j + 1, budget)
  }

  /** What an attempt comes to: try another key, or give this to the client. */
  datatype Outcome = Retry | Give(status: int, empty: bool, hasBody: bool)

  const GATEWAY_ERROR := Give(502, false, true)

  function OutcomeAt(w: World, i: nat, j: nat, budget: nat): Outcome {
    var r := w.reply(i, j);
    match PolicyOf(r)
    case RateLimited => Retry
    case AuthRejected => Retry
    case Transient => if j + 1 >= budget then Retry else GATEWAY_ERROR
    case Terminal => if r.Broken? then GATEWAY_ERROR else Give(r.status, r.empty, r.hasBody)
  }

  lemma {:induction false} LastCallIsFirstStop(w: World, i: nat, j: nat, budget: nat)
    requires j < budget
    ensures var n := LastCall(w, i, j, budget);
      j <= n < budget && Stops(w, i, n, budget) && forall k :: j <= k < n ==> !Stops(w, i, k, budget)
    decreases budget - j
  {
    if !Stops(w, i, j, budget) {
      LastCallIsFirstStop(w, i, j + 1, budget);
    }
  }

  /**
   A call that fails for a passing reason, with budget left and the backoff cut short because the
   client has gone: it ends the attempt if and only if it was a transport error or an empty answer.
   After a transient status the loop goes on with the next call all the same.
   */
  lemma CutCallEndsAttempt(w: World, i: nat, j: nat, budget: nat)
    requires j + 1 < budget && PolicyOf(w.reply(i, j)).Transient? && w.cut(i, j)
    requires forall k :: 0 <= k < j ==> !Stops(w, i, k, budget)
    ensures LastCall(w, i, 0, budget) == j <==> LeavesWhenCut(w.reply(i, j))
    ensures LastCall(w, i, 0, budget) == j ==> OutcomeAt(w, i, j, budget) == GATEWAY_ERROR
  {
    LastCallIsFirstStop(w, i, 0, budget);
    assert Stops(w, i, j, budget) <==> LeavesWhenCut(w.reply(i, j));
  }

  /** A failure that may pass: a transient transport error, a server error, or an empty completion. */
  predicate MayPass(r: Reply) {
    match r
    case Broken(transient) => transient
    case Answer(status, empty, _) => status >= 500 || (200 <= status < 400 && empty)
  }

  /**
   An attempt calls until a reply cannot pass, the budget is used up, or a backoff is cut short
   (unless it follows a server error).  Rejected and rate-limited keys, and failures that never
   passed, are a matter for another key; anything else is for the client, as it came if it is an answer.
   */
  lemma AttemptMeaning(w: World, i: nat, budget: nat)
    requires budget > 0
    ensures var n := LastCall(w, i, 0, budget);
      var r, o := w.reply(i, n), OutcomeAt(w, i, n, budget);
      && n < budget
      && (forall k :: 0 <= k < n ==> MayPass(w.reply(i, k)) && (w.cut(i, k) ==> ServerError(w.reply(i, k))))
      && (n + 1 < budget ==> !MayPass(r) || (w.cut(i, n) && !ServerError(r)))
      && (o == Retry <==> (r.Answer? && r.status in {401, 403, 429}) || (MayPass(r) && n + 1 == budget))
      && (r == Broken(false) || (MayPass(r) && n + 1 < budget) ==> o == Give(502, false, true))
      && (r.Answer? && !MayPass(r) && r.status !in {401, 403, 429} ==> o == Give(r.status, r.empty, r.hasBody))
  {
    var n := LastCall(w, i, 0, budget);
    LastCallIsFirstStop(w, i, 0, budget);
    forall k | 0 <= k < n ensures MayPass(w.reply(i, k)) && (w.cut(i, k) ==> ServerError(w.reply(i, k))) {
      assert !Stops(w, i, k, budget);
    }
  }

  predicate ServerError(r: Reply) {
    r.Answer? && r.status >= 500
  }

  // ---------- one attempt ----------

  /** Only calls of this key and what follows from them. */
  ghost predicate OnKey(log: seq<Action>, key: string) {
    forall i :: 0 <= i < |log| ==> log[i] in {Call(key), Cool(key), Kill(key)}
  }

  lemma {:induction false} KeyLogAppended(log: seq<Action>, more: seq<Action>, key: string)
    requires LeaseOf(log) == Holds(key) && OnKey(more, key)
    ensures LeaseOf(log + more) == Holds(key)
    ensures Acquires(log + more) == Acquires(log) && Calls(log + more) == Calls(log) + Calls(more)
            && Sends(log + more) == Sends(log)
  {
    if more == [] {
      AppendNothing(log);
    } else {
      var n := |more| - 1;
      KeyLogAppended(log, more[..n], key);
      AppendLast(log, more);
      OneMore(log + more[..n], more[n]);
      AppendNothing(Sends(log));
    }
  }

  lemma KeyLogGrows(log: seq<Action>, key: string, a: Action)
    requires OnKey(log, key) && a in {Call(key), Cool(key), Kill(key)}
    ensures OnKey(log + [a], key) && Calls(log + [a]) == Calls(log) + (if a.Call? then 1 else 0)
    ensures Unnoted(log, key) && a.Call? ==> Unnoted(log + [a], key)
  {
    OneMore(log, a);
  }

  predicate Unnoted(log: seq<Action>, key: string) {
    Cool(key) !in log && Kill(key) !in log
  }

  /** What is noted about the key after an answer with this status. */
  function Noted(key: string, policy: Policy): seq<Action> {
    match policy
    case RateLimited => [Cool(key)]
    case AuthRejected => [Kill(key)]
    case _ => []
  }

  /** The key is cooled exactly after 429 and killed exactly after 401 and 403, as the last reply of the attempt. */
  ghost predicate NotedAfter(log: seq<Action>, key: string, r: Reply) {
    && (Cool(key) in log <==> r.Answer? && r.status == 429)
    && (Kill(key) in log <==> r.Answer? && (r.status == 401 || r.status == 403))
  }

  lemma OneNoted(log: seq<Action>, key: string, a: Action)
    requires OnKey(log, key) && Unnoted(log, key) && a in {Cool(key), Kill(key)}
    ensures OnKey(log + [a], key) && Calls(log + [a]) == Calls(log)
    ensures (Cool(key) in log + [a] <==> a.Cool?) && (Kill(key) in log + [a] <==> a.Kill?)
  {
    OneMore(log, a);
    assert a in log + [a];
  }

  lemma NotedOnKey(log: seq<Action>, key: string, r: Reply)
    requires OnKey(log, key) && Unnoted(log, key) && r.Answer?
    ensures var after := log + Noted(key, StatusPolicy(r.status));
      OnKey(after, key) && Calls(after) == Calls(log) && NotedAfter(after, key, r)
  {
    if StatusPolicy(r.status).RateLimited? {
      OneNoted(log, key, Cool(key));
    } else if StatusPolicy(r.status).AuthRejected? {
      OneNoted(log, key, Kill(key));
    } else {
      AppendNothing(log);
    }
  }

  /**
   executeUpstreamJSONRequest for the chat endpoint: calls with one key until one is conclusive or the
   budget is used up.
   */
  method ExecuteJSON(w: World, i: nat, key: string, budget: nat) returns (outcome: Outcome, log: seq<Action>)
    requires budget > 0
    ensures outcome == OutcomeAt(w, i, LastCall(w, i, 0, budget), budget)
    ensures OnKey(log, key) && Calls(log) == LastCall(w, i, 0, budget) + 1 <= budget
    ensures NotedAfter(log, key, w.reply(i, LastCall(w, i, 0, budget)))
  {
    LastCallIsFirstStop(w, i, 0, budget);
    log := [];
    var attempt := 0;
    while attempt < budget
      invariant attempt < budget && LastCall(w, i, attempt, budget) == LastCall(w, i, 0, budget)
      invariant OnKey(log, key) && Calls(log) == attempt && Unnoted(log, key)
    {
      KeyLogGrows(log, key, Call(key));
      log := log + [Call(key)];
      var r := w.reply(i, attempt);
      if r.Broken? && !r.transient {
        return GATEWAY_ERROR, log;
      }
      if r.Broken? || (200 <= r.status < 400 && r.empty) {
        if attempt + 1 < budget {
          if w.cut(i, attempt) {
            break;
          }
          attempt := attempt + 1;
          continue;
        }
        return Retry, log;
      }
      var policy := StatusPolicy(r.status);
      if policy.Transient? {
        if attempt + 1 < budget {
          // A cut backoff only breaks out of the switch here, and so goes on with the next call all the same.
          attempt := attempt + 1;
          continue;
        }
        return Retry, log;
      }
      NotedOnKey(log, key, r);
      log := log + Noted(key, policy);
      return if policy.Terminal? then Give(r.status, r.empty, r.hasBody) else Retry, log;
    }
    return GATEWAY_ERROR, log;
  }

  // ---------- a request without streaming ----------

  datatype Config = Config(maxRetries: int, transportRetryCount: int, silentFallback: bool)

  const DEFAULT_MAX_RETRIES := 5
  const DEFAULT_TRANSPORT_RETRY_COUNT := 2

  /** crossKeyAttemptBudget */
  function CrossKeyBudget(cfg: Config): nat {
    (if cfg.maxRetries < 0 then DEFAULT_MAX_RETRIES else cfg.maxRetries) + 1
  }

  /** The calls that one attempt may make: sameKeyTransportRetryBudget, normalized, and one more. */
  function CallBudget(cfg: Config): (n: nat)
    ensures n >= 1
  {
    (if cfg.transportRetryCount <= 0 then DEFAULT_TRANSPORT_RETRY_COUNT else cfg.transportRetryCount) + 1
  }

  /** The budgets: 6 attempts and 3 calls for each by default. */
  lemma BudgetMeaning(cfg: Config)
    ensures cfg.maxRetries < 0 ==> CrossKeyBudget(cfg) == 6
    ensures cfg.maxRetries >= 0 ==> CrossKeyBudget(cfg) == cfg.maxRetries + 1
    ensures cfg.transportRetryCount <= 0 ==> CallBudget(cfg) == 3
    ensures cfg.transportRetryCount > 0 ==> CallBudget(cfg) == cfg.transportRetryCount + 1
  {
  }

  /** n attempts with m calls each. */
  function Product(n: nat, m: nat): nat {
    if n == 0 then 0 else Product(n - 1, m) + m
  }

  lemma {:induction false} ProductIsProduct(n: nat, m: nat)
    ensures Product(n, m) == n * m
  {
    if n > 0 {
      ProductIsProduct(n - 1, m);
    }
  }

  datatype Result = ClientClosed | TimedOut | Passed(status: int) | Exhausted | Fallback

  /** Between two attempts: no lease is left, and the attempts and calls made are within their budgets. */
  ghost predicate Accounted(log: seq<Action>, attempts: nat, budget: nat) {
    LeaseOf(log) == Free && Acquires(log) <= attempts && Calls(log) <= Product(Acquires(log), budget)
  }

  lemma {:induction false} ProductGrows(n: nat, n': nat, m: nat)
    requires n <= n'
    ensures Product(n, m) <= Product(n', m)
  {
    if n < n' {
      ProductGrows(n, n' - 1, m);
    }
  }

  /** The request is over: no lease is left, at most n attempts were made, with at most m calls each. */
  ghost predicate WithinBudget(log: seq<Action>, n: nat, m: nat) {
    LeaseOf(log) == Free && Acquires(log) <= n && Calls(log) <= n * m
  }

  lemma StaysWithin(log: seq<Action>, n: nat, m: nat)
    requires Accounted(log, n, m)
    ensures WithinBudget(log, n, m)
  {
    ProductGrows(Acquires(log), n, m);
    ProductIsProduct(n, m);
  }

  /** In attempt `attempts`, with its key held; the calls of this attempt are counted once they are made. */
  ghost predicate Working(log: seq<Action>, key: string, attempts: nat, budget: nat, called: bool) {
    && LeaseOf(log) == Holds(key) && 1 <= Acquires(log) <= attempts + 1
    && Calls(log) <= Product(if called then Acquires(log) else Acquires(log) - 1, budget)
  }

  lemma KeyAcquired(log: seq<Action>, attempts: nat, budget: nat, key: string)
    requires Accounted(log, attempts, budget)
    ensures Working(log + [Acquire(key)], key, attempts, budget, false) && Sends(log + [Acquire(key)]) == Sends(log)
    ensures Acquires(log + [Acquire(key)]) == Acquires(log) + 1
  {
    OneMore(log, Acquire(key));
    AppendNothing(Sends(log));
  }

  lemma KeyCalled(log: seq<Action>, attempts: nat, budget: nat, key: string, inner: seq<Action>)
    requires Working(log, key, attempts, budget, false) && OnKey(inner, key) && Calls(inner) <= budget
    ensures Working(log + inner, key, attempts, budget, true) && Sends(log + inner) == Sends(log)
    ensures Acquires(log + inner) == Acquires(log)
  {
    KeyLogAppended(log, inner, key);
  }

  lemma EventsSent(log: seq<Action>, attempts: nat, budget: nat, key: string)
    requires Working(log, key, attempts, budget, true)
    ensures Working(log + [Send(attempts)], key, attempts, budget, true)
    ensures Sends(log + [Send(attempts)]) == Sends(log) + [attempts]
    ensures Acquires(log + [Send(attempts)]) == Acquires(log)
  {
    OneMore(log, Send(attempts));
  }

  lemma EventsSentLate(log: seq<Action>, attempt: nat, n: nat, m: nat)
    requires WithinBudget(log, n, m)
    ensures WithinBudget(log + [Send(attempt)], n, m) && Sends(log + [Send(attempt)]) == Sends(log) + [attempt]
    ensures Acquires(log + [Send(attempt)]) == Acquires(log)
  {
    OneMore(log, Send(attempt));
  }

  lemma KeyReleased(log: seq<Action>, attempts: nat, budget: nat, key: string)
    requires Working(log, key, attempts, budget, true)
    ensures Accounted(log + [Release(key)], attempts + 1, budget) && Sends(log + [Release(key)]) == Sends(log)
    ensures Acquires(log + [Release(key)]) == Acquires(log)
  {
    OneMore(log, Release(key));
    AppendNothing(Sends(log));
  }

  // ---------- which attempt decides ----------

  /** Whether the attempt acquires a key. */
  predicate TakesKey(w: World, i: nat, watches: bool) {
    !(watches && w.cancelled(i)) && w.acquire(i).Got?
  }

  function KeysTaken(w: World, n: nat, watches: bool): nat {
    if n == 0 then 0 else KeysTaken(w, n - 1, watches) + (if TakesKey(w, n - 1, watches) then 1 else 0)
  }

  /** The first attempt from i on that does not go on to the next; `max` if all do. */
  function Deciding(goesOn: nat -> bool, i: nat, max: nat): nat
    requires i <= max
    decreases max - i
  {
    if i == max || !goesOn(i) then i else Deciding(goesOn, i + 1, max)
  }

  lemma {:induction false} DecidingIsFirst(goesOn: nat -> bool, i: nat, max: nat)
    requires i <= max
    ensures var n := Deciding(goesOn, i, max);
      i <= n <= max && (n < max ==> !goesOn(n)) && forall k: nat :: i <= k < n ==> goesOn(k)
    decreases max - i
  {
    if i < max && goesOn(i) {
      DecidingIsFirst(goesOn, i + 1, max);
    }
  }

  /** The attempts before i have gone on to the next, and the log has their acquires and no event. */
  ghost predicate Undecided(w: World, goesOn: nat -> bool, i: nat, max: nat, watches: bool, log: seq<Action>) {
    && i <= max && Deciding(goesOn, i, max) == Deciding(goesOn, 0, max)
    && Acquires(log) == KeysTaken(w, i, watches) && Sends(log) == []
  }

  /** Attempt n has decided the request, or all have been in vain, and no key was acquired behind it. */
  ghost predicate Decided(w: World, goesOn: nat -> bool, n: nat, max: nat, watches: bool, log: seq<Action>) {
    && n == Deciding(goesOn, 0, max) && n <= max
    && Acquires(log) == KeysTaken(w, if n < max then n + 1 else max, watches)
  }

  lemma AttemptDone(w: World, goesOn: nat -> bool, i: nat, max: nat, watches: bool, log: seq<Action>,
        after: seq<Action>)
    requires Undecided(w, goesOn, i, max, watches, log) && i < max
    requires Acquires(after) == Acquires(log) + if TakesKey(w, i, watches) then 1 else 0
    ensures goesOn(i) && Sends(after) == [] ==> Undecided(w, goesOn, i + 1, max, watches, after)
    ensures !goesOn(i) ==> Decided(w, goesOn, i, max, watches, after)
  {
  }

  function AttemptOf(w: World, i: nat, budget: nat): Outcome {
    OutcomeAt(w, i, LastCall(w, i, 0, budget), budget)
  }

  /** The attempt is skipped, its key is of no use, or its answer is empty. */
  function Unanswered(w: World, budget: nat): nat -> bool {
    (i: nat) =>
      !w.cancelled(i) && !w.acquire(i).QueueTimeout? &&
      (w.acquire(i).SchedulerError? || !Conclusive(AttemptOf(w, i, budget)))
  }

  /** A success with content, or a refusal with a body. */
  predicate Conclusive(o: Outcome) {
    o.Give? && (if 200 <= o.status < 300 then !o.empty else o.hasBody)
  }

  /** What the client of a request without streaming gets from the attempt that decides it. */
  function Verdict(w: World, i: nat, budget: nat): Result {
    if w.cancelled(i) then ClientClosed
    else if w.acquire(i).QueueTimeout? then TimedOut
    else match AttemptOf(w, i, budget)
      case Retry => Exhausted
      case Give(status, _, _) => Passed(status)
  }

  /** A refusal of the key itself. */
  predicate RejectsKey(r: Reply) {
    r.Answer? && r.status in {401, 403, 429}
  }

  /** An answer that is not a success and has no body to show. */
  predicate SaysNothing(r: Reply) {
    r.Answer? && !(200 <= r.status < 300) && !r.hasBody
  }

  /** Attempts without a key: a client that has gone and a full queue decide, an error of the scheduler does not. */
  lemma KeylessMeaning(w: World, i: nat, budget: nat)
    ensures w.cancelled(i) ==> !Unanswered(w, budget)(i) && Verdict(w, i, budget) == ClientClosed
    ensures !w.cancelled(i) && w.acquire(i).QueueTimeout? ==>
              !Unanswered(w, budget)(i) && Verdict(w, i, budget) == TimedOut
    ensures !w.cancelled(i) && w.acquire(i).SchedulerError? ==> Unanswered(w, budget)(i)
  {
  }

  /**
   With a key it is the last reply that counts: the request goes on to the next attempt if the key was
   rejected, if nothing but passing failures came back, and if there is nothing to show.  Otherwise the
   client gets the status of that answer, or 502 if there is none that could be passed on.
   */
  lemma AnswerMeaning(w: World, i: nat, budget: nat)
    requires budget > 0 && !w.cancelled(i) && w.acquire(i).Got?
    ensures var n := LastCall(w, i, 0, budget);
      var r := w.reply(i, n);
      && (Unanswered(w, budget)(i) <==>
          RejectsKey(r) || (MayPass(r) && n + 1 == budget) || (SaysNothing(r) && !MayPass(r)))
      && (!Unanswered(w, budget)(i) ==>
          Verdict(w, i, budget) == Passed(if r.Answer? && !MayPass(r) then r.status else 502))
  {
    AttemptMeaning(w, i, budget);
  }

  /**
   executeOpenAINonStream, without its cache: the first attempt that decides gives the result, and no
   key is acquired behind it.
   */
  method ExecuteNonStream(w: World, cfg: Config) returns (result: Result, log: seq<Action>)
    ensures WithinBudget(log, CrossKeyBudget(cfg) + 5, CallBudget(cfg)) && Sends(log) == []
    ensures var max, budget := CrossKeyBudget(cfg) + 5, CallBudget(cfg);
      var n := Deciding(Unanswered(w, budget), 0, max);
      && Decided(w, Unanswered(w, budget), n, max, true, log)
      && result == if n < max then Verdict(w, n, budget) else if cfg.silentFallback then Fallback else Exhausted
  {
    var maxAttempts, budget := CrossKeyBudget(cfg) + 5, CallBudget(cfg);
    ghost var goesOn := Unanswered(w, budget);
    log := [];
    for i := 0 to maxAttempts
      invariant Accounted(log, i, budget) && Undecided(w, goesOn, i, maxAttempts, true, log)
    {
      StaysWithin(log, maxAttempts, budget);
      ghost var before := log;
      if !TakesKey(w, i, true) {
        AttemptDone(w, goesOn, i, maxAttempts, true, before, log);
      }
      if w.cancelled(i) {
        return ClientClosed, log;
      }
      var acquisition := w.acquire(i);
      if acquisition.QueueTimeout? {
        return TimedOut, log;
      }
      if acquisition.SchedulerError? {
        continue;
      }
      var key := acquisition.key;
      KeyAcquired(log, i, budget, key);
      log := log + [Acquire(key)];
      var outcome, inner := ExecuteJSON(w, i, key, budget);
      KeyCalled(log, i, budget, key, inner);
      log := log + inner;
      KeyReleased(log, i, budget, key);
      log := log + [Release(key)];
      StaysWithin(log, maxAttempts, budget);
      AttemptDone(w, goesOn, i, maxAttempts, true, before, log);
      if outcome.Retry? {
        continue;
      }
      if 200 <= outcome.status < 300 {
        if outcome.empty {
          continue;
        }
        return Passed(outcome.status), log;
      }
      if outcome.hasBody {
        return Passed(outcome.status), log;
      }
    }
    StaysWithin(log, maxAttempts, budget);
    return if cfg.silentFallback then Fallback else Exhausted, log;
  }

  // ---------- opening a stream ----------

  /** A stream is not read before it is opened: an empty one shows as a transient error of its prefetch. */
  function Unread(r: Reply): Reply {
    if r.Answer? then r.(empty := false) else r
  }

  function Streaming(w: World): World {
    w.(reply := (i: nat, j: nat) => Unread(w.reply(i, j)))
  }

  datatype Opening = Opened | TryOther | Failed

  function OpeningOf(o: Outcome): Opening {
    match o
    case Retry => TryOther
    case Give(status, _, _) => if status >= 400 then Failed else Opened
  }

  /** openUpstreamStream */
  method OpenStream(w: World, i: nat, key: string, budget: nat) returns (opening: Opening, log: seq<Action>)
    requires budget > 0
    ensures opening == OpeningOf(OutcomeAt(Streaming(w), i, LastCall(Streaming(w), i, 0, budget), budget))
    ensures OnKey(log, key) && Calls(log) == LastCall(Streaming(w), i, 0, budget) + 1 <= budget
    ensures NotedAfter(log, key, w.reply(i, LastCall(Streaming(w), i, 0, budget)))
  {
    ghost var v := Streaming(w);
    LastCallIsFirstStop(v, i, 0, budget);
    log := [];
    var attempt := 0;
    while attempt < budget
      invariant attempt < budget && LastCall(v, i, attempt, budget) == LastCall(v, i, 0, budget)
      invariant OnKey(log, key) && Calls(log) == attempt && Unnoted(log, key)
    {
      KeyLogGrows(log, key, Call(key));
      log := log + [Call(key)];
      var r := w.reply(i, attempt);
      assert v.reply(i, attempt) == Unread(r);
      if r.Broken? {
        if !r.transient {
          return Failed, log;
        }
        if attempt + 1 < budget {
          if w.cut(i, attempt) {
            break;
          }
          attempt := attempt + 1;
          continue;
        }
        return TryOther, log;
      }
      var policy := StatusPolicy(r.status);
      if policy.Transient? {
        if attempt + 1 < budget {
          attempt := attempt + 1;
          continue;
        }
        return TryOther, log;
      }
      NotedOnKey(log, key, r);
      log := log + Noted(key, policy);
      if !policy.Terminal? {
        return TryOther, log;
      }
      return if r.status >= 400 then Failed else Opened, log;
    }
    return Failed, log;
  }

  // ---------- requests with streaming ----------

  datatype StreamResult =
    | StreamClosed
    | StreamTimedOut
    | Streamed(attempt: nat, failed: bool)
    | OpenFailed
    | StreamExhausted
    | StreamFallback

  /** The opening of attempt i, told by its last reply. */
  function OpeningAt(w: World, i: nat, budget: nat): Opening {
    OpeningOf(AttemptOf(Streaming(w), i, budget))
  }

  /** A stream is opened by any answer below 400; rejected keys and failures that never passed are for another key. */
  lemma OpeningMeaning(w: World, i: nat, budget: nat)
    requires budget > 0
    ensures var n := LastCall(Streaming(w), i, 0, budget);
      var r := w.reply(i, n);
      && (OpeningAt(w, i, budget).Opened? <==> r.Answer? && r.status < 400)
      && (OpeningAt(w, i, budget).TryOther? <==>
          (r.Answer? && r.status in {401, 403, 429}) || ((r == Broken(true) || ServerError(r)) && n + 1 == budget))
  {
    AttemptMeaning(Streaming(w), i, budget);
    var n := LastCall(Streaming(w), i, 0, budget);
    assert Streaming(w).reply(i, n) == Unread(w.reply(i, n));
  }

  /** The attempt is skipped, opens no stream, or its stream turns out to be empty. */
  function Unstreamed(w: World, budget: nat, translators: nat -> Translator): nat -> bool {
    (i: nat) =>
      !w.cancelled(i) && !w.acquire(i).QueueTimeout? &&
      (w.acquire(i).SchedulerError? || !OpeningAt(w, i, budget).Opened?
       || ReportsEmpty(translators(i).report(w.stream(i))))
  }

  function StreamVerdict(w: World, i: nat, translators: nat -> Translator): StreamResult {
    if w.cancelled(i) then StreamClosed
    else if w.acquire(i).QueueTimeout? then StreamTimedOut
    else Streamed(i, w.stream(i).failed)
  }

  /** The same for a Responses stream, which an error of the opening ends. */
  function Unresponded(w: World, budget: nat, t: Translator): nat -> bool {
    (i: nat) =>
      !w.acquire(i).QueueTimeout? &&
      (w.acquire(i).SchedulerError? || OpeningAt(w, i, budget).TryOther?
       || (OpeningAt(w, i, budget).Opened? && ReportsEmpty(t.report(w.stream(i)))))
  }

  function ResponsesVerdict(w: World, i: nat, budget: nat): StreamResult {
    if w.acquire(i).QueueTimeout? then StreamTimedOut
    else if OpeningAt(w, i, budget).Failed? then OpenFailed
    else Streamed(i, w.stream(i).failed)
  }

  /** Nothing came of the stream: no failure, no content, no event. */
  predicate Nothing(r: Report) {
    !r.failed && !r.hasContent && !r.started
  }

  /**
   With a key a stream decides if the last reply is an answer below 400 and something comes of it;
   nothing else does, but for a client that has gone and a full queue.
   */
  lemma StreamMeaning(w: World, i: nat, budget: nat, translators: nat -> Translator)
    requires budget > 0
    ensures var r, goesOn := w.reply(i, LastCall(Streaming(w), i, 0, budget)), Unstreamed(w, budget, translators)(i);
      && (w.cancelled(i) ==> !goesOn && StreamVerdict(w, i, translators) == StreamClosed)
      && (!w.cancelled(i) && w.acquire(i).QueueTimeout? ==>
            !goesOn && StreamVerdict(w, i, translators) == StreamTimedOut)
      && (!w.cancelled(i) && w.acquire(i).SchedulerError? ==> goesOn)
      && (!w.cancelled(i) && w.acquire(i).Got? ==>
            && (goesOn <==> !(r.Answer? && r.status < 400) || Nothing(translators(i).report(w.stream(i))))
            && StreamVerdict(w, i, translators) == Streamed(i, w.stream(i).failed))
  {
    OpeningMeaning(w, i, budget);
  }

  /** For a Responses stream also an error of the opening decides, unless another key may do better. */
  lemma ResponseMeaning(w: World, i: nat, budget: nat, t: Translator)
    requires budget > 0
    ensures var n := LastCall(Streaming(w), i, 0, budget);
      var r, goesOn := w.reply(i, n), Unresponded(w, budget, t)(i);
      && (w.acquire(i).QueueTimeout? ==> !goesOn && ResponsesVerdict(w, i, budget) == StreamTimedOut)
      && (w.acquire(i).SchedulerError? ==> goesOn)
      && (w.acquire(i).Got? ==>
            if r.Answer? && r.status < 400 then
              && (goesOn <==> Nothing(t.report(w.stream(i))))
              && ResponsesVerdict(w, i, budget) == Streamed(i, w.stream(i).failed)
            else
              && (goesOn <==> RejectsKey(r) || ((r == Broken(true) || ServerError(r)) && n + 1 == budget))
              && (!goesOn ==> ResponsesVerdict(w, i, budget) == OpenFailed))
  {
    OpeningMeaning(w, i, budget);
  }

  /** Who has sent events: nobody, or only the translator of the attempt that the request ended with. */
  predicate OneSender(result: StreamResult, sends: seq<nat>) {
    sends == [] || (result.Streamed? && forall n :: n in sends ==> n == result.attempt)
  }

  /** The first part that both stream loops share: the key is acquired and a stream opened with it. */
  method AcquireAndOpen(w: World, i: nat, key: string, budget: nat, log: seq<Action>)
    returns (opening: Opening, after: seq<Action>)
    requires Accounted(log, i, budget) && budget > 0
    ensures opening == OpeningAt(w, i, budget)
    ensures Working(after, key, i, budget, true) && Sends(after) == Sends(log) && Acquires(after) == Acquires(log) + 1
  {
    KeyAcquired(log, i, budget, key);
    after := log + [Acquire(key)];
    var inner;
    opening, inner := OpenStream(w, i, key, budget);
    KeyCalled(after, i, budget, key, inner);
    after := after + inner;
  }

  /** The second part: the relay drives the translator, and then the key is released. */
  method RelayStream(w: World, i: nat, key: string, budget: nat, t: Translator, log: seq<Action>)
    returns (report: Report, after: seq<Action>)
    requires Working(log, key, i, budget, true)
    ensures report == t.report(w.stream(i))
    ensures Accounted(after, i + 1, budget) && Acquires(after) == Acquires(log)
    ensures Sends(after) == if report.events > 0 then Sends(log) + [i] else Sends(log)
  {
    report, after := t.report(w.stream(i)), log;
    if report.events > 0 {
      EventsSent(after, i, budget, key);
      after := after + [Send(i)];
    }
    KeyReleased(after, i, budget, key);
    after := after + [Release(key)];
  }

  /** One attempt with a key: whatever comes of the opening, the key is released. */
  method TryStream(w: World, i: nat, key: string, budget: nat, t: Translator, log: seq<Action>)
    returns (opening: Opening, report: Report, after: seq<Action>)
    requires Accounted(log, i, budget) && budget > 0
    ensures opening == OpeningAt(w, i, budget) && (opening.Opened? ==> report == t.report(w.stream(i)))
    ensures Accounted(after, i + 1, budget) && Acquires(after) == Acquires(log) + 1
    ensures Sends(after) == if opening.Opened? && report.events > 0 then Sends(log) + [i] else Sends(log)
  {
    report := Report(false, false, 0, false);
    opening, after := AcquireAndOpen(w, i, key, budget, log);
    if opening.TryOther? {
      KeyReleased(after, i, budget, key);
      after := after + [Release(key)];
      return;
    }
    if !opening.Opened? {
      // An error, or no response.
      KeyReleased(after, i, budget, key);
      after := after + [Release(key)];
      return;
    }
    report, after := RelayStream(w, i, key, budget, t, after);
  }

  /**
   executeTranslatedCompatStream; each attempt that opens a stream makes a translator of its own,
   TranslatorOf the Claude or the Gemini protocol.
   */
  method ExecuteCompatStream(w: World, cfg: Config, translators: nat -> Translator)
    returns (result: StreamResult, log: seq<Action>)
    ensures WithinBudget(log, CrossKeyBudget(cfg) + 5, CallBudget(cfg))
    ensures OneSender(result, Sends(log))
    ensures result.Streamed? ==>
              var report := translators(result.attempt).report(w.stream(result.attempt));
              !ReportsEmpty(report) && (Sends(log) != [] <==> report.events > 0) && result.failed == report.failed
    ensures var max, budget := CrossKeyBudget(cfg) + 5, CallBudget(cfg);
      var n := Deciding(Unstreamed(w, budget, translators), 0, max);
      && Decided(w, Unstreamed(w, budget, translators), n, max, true, log)
      && result == if n < max then StreamVerdict(w, n, translators)
                   else if cfg.silentFallback then StreamFallback else StreamExhausted
  {
    var maxAttempts, budget := CrossKeyBudget(cfg) + 5, CallBudget(cfg);
    ghost var goesOn := Unstreamed(w, budget, translators);
    log := [];
    for i := 0 to maxAttempts
      invariant Accounted(log, i, budget) && Undecided(w, goesOn, i, maxAttempts, true, log)
    {
      StaysWithin(log, maxAttempts, budget);
      ghost var before := log;
      if !TakesKey(w, i, true) {
        AttemptDone(w, goesOn, i, maxAttempts, true, before, log);
      }
      if w.cancelled(i) {
        return StreamClosed, log;
      }
      var acquisition := w.acquire(i);
      if acquisition.QueueTimeout? {
        return StreamTimedOut, log;
      }
      if acquisition.SchedulerError? {
        continue;
      }
      var opening, report;
      opening, report, log := TryStream(w, i, acquisition.key, budget, translators(i), log);
      AttemptDone(w, goesOn, i, maxAttempts, true, before, log);
      if !opening.Opened? || ReportsEmpty(report) {
        continue;
      }
      StaysWithin(log, maxAttempts, budget);
      return Streamed(i, report.failed), log;
    }
    StaysWithin(log, maxAttempts, budget);
    return if cfg.silentFallback then StreamFallback else StreamExhausted, log;
  }

  /** After a failure the translator's Error writes response.failed; the key has been released by then. */
  method ReportFailure(report: Report, i: nat, n: nat, m: nat, log: seq<Action>) returns (after: seq<Action>)
    requires WithinBudget(log, n, m) && Sends(log) == if report.events > 0 then [i] else []
    ensures WithinBudget(after, n, m) && OneSender(Streamed(i, report.failed), Sends(after))
    ensures Acquires(after) == Acquires(log)
    ensures Sends(after) != [] <==> report.events > 0 || report.failed
  {
    after := log;
    if report.failed {
      EventsSentLate(after, i, n, m);
      after := after + [Send(i)];
    }
  }

  /**
   executeResponsesStream, whose translator is TranslatorOf the Responses protocol: no extra attempts,
   and a stream that cannot be opened ends the request.
   */
  method ExecuteResponsesStream(w: World, cfg: Config, t: Translator)
    returns (result: StreamResult, log: seq<Action>)
    ensures WithinBudget(log, CrossKeyBudget(cfg), CallBudget(cfg))
    ensures OneSender(result, Sends(log))
    ensures result.Streamed? ==>
              var report := t.report(w.stream(result.attempt));
              && !ReportsEmpty(report) && result.failed == report.failed
              && (Sends(log) != [] <==> report.events > 0 || report.failed)
    ensures var max, budget := CrossKeyBudget(cfg), CallBudget(cfg);
      var n := Deciding(Unresponded(w, budget, t), 0, max);
      && Decided(w, Unresponded(w, budget, t), n, max, false, log)
      && result == if n < max then ResponsesVerdict(w, n, budget) else StreamExhausted
  {
    var maxAttempts, budget := CrossKeyBudget(cfg), CallBudget(cfg);
    ghost var goesOn := Unresponded(w, budget, t);
    log := [];
    for i := 0 to maxAttempts
      invariant Accounted(log, i, budget) && Undecided(w, goesOn, i, maxAttempts, false, log)
    {
      StaysWithin(log, maxAttempts, budget);
      ghost var before := log;
      if !TakesKey(w, i, false) {
        AttemptDone(w, goesOn, i, maxAttempts, false, before, log);
      }
      var acquisition := w.acquire(i);
      if acquisition.QueueTimeout? {
        return StreamTimedOut, log;
      }
      if acquisition.SchedulerError? {
        continue;
      }
      var opening, report;
      opening, report, log := TryStream(w, i, acquisition.key, budget, t, log);
      AttemptDone(w, goesOn, i, maxAttempts, false, before, log);
      if opening.TryOther? {
        continue;
      }
      StaysWithin(log, maxAttempts, budget);
      if opening.Failed? {
        return OpenFailed, log;
      }
      if ReportsEmpty(report) {
        continue;
      }
      log := ReportFailure(report, i, maxAttempts, budget, log);
      return Streamed(i, report.failed), log;
    }
    StaysWithin(log, maxAttempts, budget);
    return StreamExhausted, log;
  }
}
