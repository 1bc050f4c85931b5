/**
 The key scheduler in local mode: a pool of weighted keys with per-key concurrency counters, a
 cooling table and a set of dead keys.  `Pool` and the functions on it say what each operation
 does; class `Scheduler` carries the operations out step by step.
 */
module KeyScheduler {
  import opened Text
  import opened SmoothRoundRobin

  datatype Key = Key(name: string, weight: real, credit: real)

  datatype Pool = Pool(
    active: seq<Key>,
    cooling: map<string, int>,
    dead: set<string>,
    concurrency: map<string, int>)

  const EMPTY_POOL := Pool([], map[], {}, map[])

  // ---------- reading a pool ----------

  function InUse(concurrency: map<string, int>, name: string): int {
    if name in concurrency then concurrency[name] else 0
  }

  /** Neither dead nor cooling at time `now`, and below the concurrency cap. */
  predicate Available(p: Pool, name: string, cap: int, now: int) {
    && name !in p.dead
    && !(name in p.cooling && p.cooling[name] >= now)
    && InUse(p.concurrency, name) < cap
  }

  function Weights(active: seq<Key>): (w: seq<real>)
    ensures |w| == |active|
  {
    seq(|active|, i requires 0 <= i < |active| => active[i].weight)
  }

  function Credits(active: seq<Key>): (c: seq<real>)
    ensures |c| == |active|
  {
    seq(|active|, i requires 0 <= i < |active| => active[i].credit)
  }

  function WithCredits(active: seq<Key>, credits: seq<real>): (r: seq<Key>)
    requires |active| == |credits|
    ensures |r| == |active|
  {
    seq(|active|, i requires 0 <= i < |active| => active[i].(credit := credits[i]))
  }

  function Eligible(p: Pool, cap: int, now: int): (e: seq<bool>)
    ensures |e| == |p.active|
  {
    seq(|p.active|, i requires 0 <= i < |p.active| => Available(p, p.active[i].name, cap, now))
  }

  /** Position of the first active key with this name. */
  function IndexOf(active: seq<Key>, name: string): (r: Option<nat>)
    ensures r.None? <==> forall i :: 0 <= i < |active| ==> active[i].name != name
    ensures r.Some? ==> r.value < |active| && active[r.value].name == name
    ensures r.Some? ==> forall i :: 0 <= i < r.value ==> active[i].name != name
  {
    if active == [] then None
    else if active[0].name == name then Some(0)
    else
      match IndexOf(active[1..], name)
      case None =>
        assert forall i :: 0 < i < |active| ==> active[i] == active[1..][i - 1];
        None
      case Some(i) => Some(i + 1)
  }

  ghost predicate DistinctNames(active: seq<Key>) {
    forall i, j :: 0 <= i < j < |active| ==> active[i].name != active[j].name
  }

  /** The position kept by a scan that replaces its candidate only by a strictly better one. */
  function Winner(b: seq<real>, elig: seq<bool>): (r: Option<nat>)
    requires |b| == |elig|
    ensures r.Some? ==> r.value < |b|
  {
    if b == [] then None
    else
      var n := |b| - 1;
      var best := Winner(b[..n], elig[..n]);
      if !elig[n] then best
      else if best.None? || b[n] > b[best.value] then Some(n)
      else best
  }

  /** The scan finds the first eligible position whose credit no eligible position exceeds. */
  lemma {:induction false} WinnerIsFirstMaximum(b: seq<real>, elig: seq<bool>)
    requires |b| == |elig|
    ensures var r := Winner(b, elig);
      && (r.None? <==> forall i :: 0 <= i < |b| ==> !elig[i])
      && (r.Some? ==>
            && elig[r.value]
            && (forall j :: 0 <= j < |b| && elig[j] ==> b[j] <= b[r.value])
            && (forall j :: 0 <= j < r.value && elig[j] ==> b[j] < b[r.value]))
  {
    if b != [] {
      var n := |b| - 1;
      WinnerIsFirstMaximum(b[..n], elig[..n]);
      assert forall j :: 0 <= j < n ==> b[..n][j] == b[j] && elig[..n][j] == elig[j];
    }
  }

  // ---------- what each operation does ----------

  function Purge(cooling: map<string, int>, now: int): map<string, int> {
    map k | k in cooling && cooling[k] >= now :: cooling[k]
  }

  function AddKey(p: Pool, name: string, weight: real): Pool {
    match IndexOf(p.active, name)
    case Some(i) => p.(active := p.active[i := p.active[i].(weight := weight)])
    case None => p.(active := p.active + [Key(name, weight, 0.0)])
  }

  /** The pool after an acquire, and the position it picked. */
  function Acquire(p: Pool, cap: int, now: int): (r: (Pool, Option<nat>))
    ensures r.1.Some? ==> r.1.value < |p.active|
  {
    var w, elig := Weights(p.active), Eligible(p, cap, now);
    var b := Bumped(w, elig, Credits(p.active));
    match Winner(b, elig)
    case None => (p.(cooling := Purge(p.cooling, now)), None)
    case Some(i) =>
      var name := p.active[i].name;
      (Pool(WithCredits(p.active, b[i := b[i] - EligibleTotal(w, elig)]),
            Purge(p.cooling, now), p.dead,
            p.concurrency[name := InUse(p.concurrency, name) + 1]),
       Some(i))
  }

  /** What AcquireKey returns: the picked key's name, or "" when no key can be had. */
  function AcquiredName(p: Pool, cap: int, now: int): string {
    match Acquire(p, cap, now).1
    case Some(i) => p.active[i].name
    case None => ""
  }

  function EffectiveCap(cap: int): int {
    if cap <= 0 then 1 else cap
  }

  /** Whether a request for this very key (white space trimmed) is granted. */
  predicate Grants(p: Pool, key: string, cap: int, now: int) {
    && TrimSpace(key) != ""
    && IndexOf(p.active, TrimSpace(key)).Some?
    && Available(p, TrimSpace(key), EffectiveCap(cap), now)
  }

  function TryAcquire(p: Pool, key: string, cap: int, now: int): Pool {
    if TrimSpace(key) == "" then p
    else
      var q := p.(cooling := Purge(p.cooling, now));
      if Grants(p, key, cap, now)
      then q.(concurrency := p.concurrency[TrimSpace(key) := InUse(p.concurrency, TrimSpace(key)) + 1])
      else q
  }

  function Release(p: Pool, key: string): Pool {
    if key != "" && InUse(p.concurrency, key) > 0
    then p.(concurrency := p.concurrency[key := p.concurrency[key] - 1])
    else p
  }

  function MarkDead(p: Pool, key: string): Pool {
    Pool(
      match IndexOf(p.active, key)
      case Some(i) => p.active[i := p.active[i].(credit := 0.0)]
      case None => p.active,
      p.cooling, p.dead + {key}, p.concurrency - {key})
  }

  datatype Op =
    | OpAdd(name: string, weight: real)
    | OpAcquire(cap: int, now: int)
    | OpTryAcquire(key: string, cap: int, now: int)
    | OpRelease(key: string)
    | OpCool(key: string, until: int)
    | OpDead(key: string)
    | OpCleanup(now: int)
    | OpReset

  function Apply(p: Pool, op: Op): Pool {
    match op
    case OpAdd(name, weight) => AddKey(p, name, weight)
    case OpAcquire(cap, now) => Acquire(p, cap, now).0
    case OpTryAcquire(key, cap, now) => TryAcquire(p, key, cap, now)
    case OpRelease(key) => Release(p, key)
    case OpCool(key, until) => p.(cooling := p.cooling[key := until])
    case OpDead(key) => MarkDead(p, key)
    case OpCleanup(now) => p.(cooling := Purge(p.cooling, now))
    case OpReset => EMPTY_POOL
  }

  function RunOps(p: Pool, ops: seq<Op>): Pool
    decreases |ops|
  {
    if ops == [] then p else RunOps(Apply(p, ops[0]), ops[1..])
  }

  // ---------- one acquire ----------

  /**
   An acquire picks an active key that is not dead, not cooling and below the cap, exactly when
   there is one; the pick is a smooth weighted round robin pick, ties going to the first key.
   */
  lemma AcquireChoice(p: Pool, cap: int, now: int)
    ensures var (after, pick) := Acquire(p, cap, now);
      && (pick.None? <==> forall i :: 0 <= i < |p.active| ==> !Available(p, p.active[i].name, cap, now))
      && (pick.None? ==> after == p.(cooling := Purge(p.cooling, now)))
      && (pick.Some? ==>
            && Available(p, p.active[pick.value].name, cap, now)
            && Pick(Weights(p.active), Eligible(p, cap, now), Credits(p.active), pick.value, Credits(after.active))
            && Weights(after.active) == Weights(p.active)
            && (forall i :: 0 <= i < |p.active| ==> after.active[i].name == p.active[i].name))
  {
    var w, elig := Weights(p.active), Eligible(p, cap, now);
    var b := Bumped(w, elig, Credits(p.active));
    WinnerIsFirstMaximum(b, elig);
    match Winner(b, elig)
    case None =>
      forall i | 0 <= i < |p.active| ensures !Available(p, p.active[i].name, cap, now) {
        assert !elig[i];
      }
    case Some(i) =>
      assert elig[i];
      var credits := b[i := b[i] - EligibleTotal(w, elig)];
      assert Credits(WithCredits(p.active, credits)) == credits;
      assert Weights(WithCredits(p.active, credits)) == w;
  }

  // ---------- the answer "" ----------

  /** The credit of a key once an acquire has added the weight of an available one. */
  function BumpedCredit(p: Pool, cap: int, now: int, i: int): real
    requires 0 <= i < |p.active|
  {
    p.active[i].credit + (if Available(p, p.active[i].name, cap, now) then p.active[i].weight else 0.0)
  }

  /** An available key whose bumped credit no available key exceeds and no earlier one reaches. */
  ghost predicate FirstBest(p: Pool, cap: int, now: int, i: int) {
    && 0 <= i < |p.active| && Available(p, p.active[i].name, cap, now)
    && forall j :: 0 <= j < |p.active| && Available(p, p.active[j].name, cap, now) ==>
                     && BumpedCredit(p, cap, now, j) <= BumpedCredit(p, cap, now, i)
                     && (j < i ==> BumpedCredit(p, cap, now, j) < BumpedCredit(p, cap, now, i))
  }

  lemma PickIsFirstBest(p: Pool, cap: int, now: int, i: nat)
    ensures Acquire(p, cap, now).1 == Some(i) <==> FirstBest(p, cap, now, i)
  {
    var elig := Eligible(p, cap, now);
    var b := Bumped(Weights(p.active), elig, Credits(p.active));
    WinnerIsFirstMaximum(b, elig);
    forall j | 0 <= j < |p.active|
      ensures elig[j] == Available(p, p.active[j].name, cap, now) && b[j] == BumpedCredit(p, cap, now, j)
    {
    }
  }

  /** The acquire answers "", which stands for "no key", and yet changes a counter. */
  predicate Leaks(p: Pool, cap: int, now: int) {
    AcquiredName(p, cap, now) == "" && Acquire(p, cap, now).0.concurrency != p.concurrency
  }

  /** An answer of "" means that no lease was taken, unless a key of that name is the first best one. */
  lemma LeakCondition(p: Pool, cap: int, now: int)
    ensures Leaks(p, cap, now) <==> exists i :: FirstBest(p, cap, now, i) && p.active[i].name == ""
  {
    var pick := Acquire(p, cap, now).1;
    if pick.Some? {
      PickIsFirstBest(p, cap, now, pick.value);
      var name := p.active[pick.value].name;
      assert InUse(Acquire(p, cap, now).0.concurrency, name) == InUse(p.concurrency, name) + 1;
    }
    forall i | FirstBest(p, cap, now, i) ensures pick == Some(i) {
      PickIsFirstBest(p, cap, now, i);
    }
  }

  /** Every active key has a name. */
  ghost predicate AllNamed(p: Pool) {
    forall i :: 0 <= i < |p.active| ==> p.active[i].name != ""
  }

  lemma NamedKept(p: Pool, op: Op)
    requires AllNamed(p) && !(op.OpAdd? && op.name == "")
    ensures AllNamed(Apply(p, op))
  {
  }

  /** A run that adds no key named "" reaches no pool whose acquire leaks. */
  lemma {:induction false} NamedRunNeverLeaks(p: Pool, ops: seq<Op>, cap: int, now: int)
    requires AllNamed(p)
    requires forall i :: 0 <= i < |ops| ==> !(ops[i].OpAdd? && ops[i].name == "")
    ensures !Leaks(RunOps(p, ops), cap, now)
    decreases |ops|
  {
    if ops == [] {
      LeakCondition(p, cap, now);
    } else {
      NamedKept(p, ops[0]);
      NamedRunNeverLeaks(Apply(p, ops[0]), ops[1..], cap, now);
    }
  }

  lemma NamesKept(p: Pool, op: Op)
    requires DistinctNames(p.active)
    ensures DistinctNames(Apply(p, op).active)
  {
    if op.OpAcquire? {
      AcquireChoice(p, op.cap, op.now);
    }
  }

  /**
   Credit is conserved: no operation changes the sum of all credits, except that MarkDead takes
   the dead key's credit away and Reset drops everything.
   */
  lemma CreditConserved(p: Pool, op: Op)
    requires !op.OpReset?
    ensures Sum(Credits(Apply(p, op).active)) == Sum(Credits(p.active)) -
            (if op.OpDead? && IndexOf(p.active, op.key).Some?
             then p.active[IndexOf(p.active, op.key).value].credit else 0.0)
  {
    var before, after := Credits(p.active), Credits(Apply(p, op).active);
    match op
    case OpAdd(name, weight) =>
      if IndexOf(p.active, name).Some? {
        assert after == before;
      } else {
        assert after == before + [0.0];
        assert after[..|before|] == before;
      }
    case OpAcquire(cap, now) =>
      AcquireChoice(p, cap, now);
      var pick := Acquire(p, cap, now).1;
      if pick.Some? {
        PickConserves(Weights(p.active), Eligible(p, cap, now), before, pick.value, after);
      }
    case OpDead(key) =>
      match IndexOf(p.active, key) {
        case Some(i) =>
          assert after == before[i := 0.0];
          SumUpdate(before, i, 0.0);
        case None =>
      }
    case _ =>
  }

  // ---------- lease counters over whole runs ----------

  /** How many leases each key really has outstanding after one operation. */
  function Outstanding(p: Pool, out: map<string, int>, op: Op): map<string, int> {
    match op
    case OpAcquire(cap, now) =>
      var pick := Acquire(p, cap, now).1;
      if pick.None? then out
      else var name := p.active[pick.value].name; out[name := InUse(out, name) + 1]
    case OpTryAcquire(key, cap, now) =>
      if Grants(p, key, cap, now) then out[TrimSpace(key) := InUse(out, TrimSpace(key)) + 1] else out
    case OpRelease(key) => if key == "" then out else out[key := InUse(out, key) - 1]
    case _ => out
  }

  /** Every release returns a lease that is still held, and every acquire uses the cap `m`. */
  predicate LeaseDiscipline(p: Pool, out: map<string, int>, ops: seq<Op>, m: int)
    decreases |ops|
  {
    ops == [] ||
    (&& (ops[0].OpRelease? && ops[0].key != "" ==> InUse(out, ops[0].key) > 0)
     && (ops[0].OpAcquire? || ops[0].OpTryAcquire? ==> ops[0].cap == m)
     && LeaseDiscipline(Apply(p, ops[0]), Outstanding(p, out, ops[0]), ops[1..], m))
  }

  function RunOutstanding(p: Pool, out: map<string, int>, ops: seq<Op>): map<string, int>
    decreases |ops|
  {
    if ops == [] then out else RunOutstanding(Apply(p, ops[0]), Outstanding(p, out, ops[0]), ops[1..])
  }

  /** The counter of `k` lies between 0 and the cap and never exceeds the leases really held. */
  predicate CounterSound(p: Pool, out: map<string, int>, m: int, k: string) {
    0 <= InUse(p.concurrency, k) <= EffectiveCap(m) && InUse(p.concurrency, k) <= InUse(out, k)
  }

  lemma CounterStep(p: Pool, out: map<string, int>, op: Op, m: int, k: string)
    requires CounterSound(p, out, m, k)
    requires op.OpRelease? && op.key != "" ==> InUse(out, op.key) > 0
    requires op.OpAcquire? || op.OpTryAcquire? ==> op.cap == m
    ensures CounterSound(Apply(p, op), Outstanding(p, out, op), m, k)
    ensures InUse(p.concurrency, k) == InUse(out, k) && op != OpDead(k) && op != OpReset ==>
              InUse(Apply(p, op).concurrency, k) == InUse(Outstanding(p, out, op), k)
  {
    if op.OpAcquire? {
      AcquireChoice(p, op.cap, op.now);
    }
  }

  /**
   In every run with a constant cap m in which only held leases are released, each counter
   stays between 0 and the cap and never exceeds the number of leases really outstanding; it
   equals that number unless the key was marked dead or the pool was reset.
   */
  lemma {:induction false} LeaseCounters(p: Pool, out: map<string, int>, ops: seq<Op>, m: int, k: string)
    requires CounterSound(p, out, m, k)
    requires LeaseDiscipline(p, out, ops, m)
    ensures CounterSound(RunOps(p, ops), RunOutstanding(p, out, ops), m, k)
    ensures InUse(p.concurrency, k) == InUse(out, k) && OpDead(k) !in ops && OpReset !in ops ==>
              InUse(RunOps(p, ops).concurrency, k) == InUse(RunOutstanding(p, out, ops), k)
    decreases |ops|
  {
    if ops != [] {
      CounterStep(p, out, ops[0], m, k);
      LeaseCounters(Apply(p, ops[0]), Outstanding(p, out, ops[0]), ops[1..], m, k);
    }
  }

  /** Starting from an empty pool nothing is assumed about the counters. */
  lemma LeaseCountersFromEmpty(ops: seq<Op>, m: int, k: string)
    requires LeaseDiscipline(EMPTY_POOL, map[], ops, m)
    ensures CounterSound(RunOps(EMPTY_POOL, ops), RunOutstanding(EMPTY_POOL, map[], ops), m, k)
    ensures OpDead(k) !in ops && OpReset !in ops ==>
              InUse(RunOps(EMPTY_POOL, ops).concurrency, k) == InUse(RunOutstanding(EMPTY_POOL, map[], ops), k)
  {
    LeaseCounters(EMPTY_POOL, map[], ops, m, k);
  }

  // ---------- fairness over whole runs ----------

  /** Operations that may stand between the acquires of a fair run: they leave credits alone. */
  predicate KeepsCredits(op: Op) {
    op.OpTryAcquire? || op.OpRelease? || op.OpCool? || op.OpCleanup?
  }

  /** A run of acquires, each finding every key eligible, mixed with releases and cooling. */
  predicate FairRun(p: Pool, ops: seq<Op>)
    decreases |ops|
  {
    ops == [] ||
    (&& (KeepsCredits(ops[0]) ||
         (ops[0].OpAcquire? && p.active != [] && Eligible(p, ops[0].cap, ops[0].now) == AllEligible(|p.active|)))
     && FairRun(Apply(p, ops[0]), ops[1..]))
  }

  /** The positions picked by the acquires of a run. */
  function Picks(p: Pool, ops: seq<Op>): seq<int>
    decreases |ops|
  {
    if ops == [] then []
    else
      var rest := Picks(Apply(p, ops[0]), ops[1..]);
      if ops[0].OpAcquire? && Acquire(p, ops[0].cap, ops[0].now).1.Some?
      then [Acquire(p, ops[0].cap, ops[0].now).1.value] + rest
      else rest
  }

  lemma FairAcquire(p: Pool, op: Op)
    requires op.OpAcquire? && p.active != [] && Eligible(p, op.cap, op.now) == AllEligible(|p.active|)
    ensures var pick := Acquire(p, op.cap, op.now).1;
      && pick.Some?
      && Pick(Weights(p.active), AllEligible(|p.active|), Credits(p.active), pick.value, Credits(Apply(p, op).active))
      && Weights(Apply(p, op).active) == Weights(p.active)
  {
    AcquireChoice(p, op.cap, op.now);
    assert Eligible(p, op.cap, op.now)[0];
  }

  lemma KeptCredits(p: Pool, op: Op)
    requires KeepsCredits(op)
    ensures Credits(Apply(p, op).active) == Credits(p.active) && Weights(Apply(p, op).active) == Weights(p.active)
  {
  }

  /** A fair run of the scheduler is a run of the abstract round robin. */
  lemma {:induction false} FairRunIsRoundRobin(p: Pool, ops: seq<Op>) returns (states: seq<seq<real>>)
    requires FairRun(p, ops)
    ensures Run(Weights(p.active), states, Picks(p, ops))
    ensures states[0] == Credits(p.active)
    ensures states[|Picks(p, ops)|] == Credits(RunOps(p, ops).active)
    ensures Weights(RunOps(p, ops).active) == Weights(p.active)
    decreases |ops|
  {
    if ops == [] {
      return [Credits(p.active)];
    }
    var rest := FairRunIsRoundRobin(Apply(p, ops[0]), ops[1..]);
    if ops[0].OpAcquire? {
      FairAcquire(p, ops[0]);
      var pick := Acquire(p, ops[0].cap, ops[0].now).1;
      states := PrependPick(Weights(p.active), Credits(p.active), pick.value, rest, Picks(Apply(p, ops[0]), ops[1..]));
    } else {
      KeptCredits(p, ops[0]);
      states := rest;
    }
  }

  lemma PrependPick(w: seq<real>, cw: seq<real>, p: int, states: seq<seq<real>>, picks: seq<int>)
    returns (longer: seq<seq<real>>)
    requires Run(w, states, picks) && Pick(w, AllEligible(|w|), cw, p, states[0])
    ensures longer == [cw] + states && Run(w, longer, [p] + picks)
  {
    longer := [cw] + states;
    forall t | 0 <= t < |[p] + picks|
      ensures Pick(w, AllEligible(|w|), longer[t], ([p] + picks)[t], longer[t + 1])
    {
      if t > 0 {
        assert picks[t - 1] == ([p] + picks)[t];
      }
    }
  }

  /**
   The exact period, for the scheduler itself: when the weights are positive whole numbers with
   sum T, no key has credit, and every acquire finds every key eligible, T acquires choose each
   key exactly its weight times and bring every credit back to 0, whatever releases, specific
   acquires and coolings come between them.
   */
  lemma SchedulerPeriod(p: Pool, ops: seq<Op>, ws: seq<int>)
    requires FairRun(p, ops)
    requires Weights(p.active) == Reals(ws) && forall i :: 0 <= i < |ws| ==> ws[i] > 0
    requires Credits(p.active) == Zeros(|p.active|)
    requires |Picks(p, ops)| == IntSum(ws)
    ensures forall i :: 0 <= i < |ws| ==> Count(Picks(p, ops), i) == ws[i]
    ensures Credits(RunOps(p, ops).active) == Zeros(|p.active|)
  {
    var states := FairRunIsRoundRobin(p, ops);
    assert |ws| == |p.active|;
    ExactPeriod(ws, states, Picks(p, ops));
  }

  /**
   Fairness at every point of such a run, for any positive weights: after t acquires each key has
   been chosen at least t*w/T - (n-1) and fewer than t*w/T + 1 times.
   */
  lemma SchedulerFairness(p: Pool, ops: seq<Op>, t: nat, i: nat)
    requires FairRun(p, ops) && t <= |Picks(p, ops)| && i < |p.active|
    requires Credits(p.active) == Zeros(|p.active|) && forall j :: 0 <= j < |p.active| ==> Weights(p.active)[j] > 0.0
    ensures WithinFairShare(t, p.active[i].weight, Sum(Weights(p.active)), Count(Picks(p, ops)[..t], i), |p.active|)
  {
    var states := FairRunIsRoundRobin(p, ops);
    PrefixFairness(Weights(p.active), states, Picks(p, ops), t, i);
  }

  // ---------- the selection loop of AcquireKey ----------

  function BumpedCredits(keys: seq<Key>, elig: seq<bool>): (b: seq<real>)
    requires |elig| == |keys|
    ensures |b| == |keys|
  {
    Bumped(Weights(keys), elig, Credits(keys))
  }

  /** The loop's variables after its first `i` rounds over `keys`. */
  ghost predicate Scan(keys: seq<Key>, elig: seq<bool>, i: int, now: seq<Key>, index: int, best: real, total: real) {
    && 0 <= i <= |keys| == |elig| == |now|
    && var b := BumpedCredits(keys, elig);
       && (forall j :: 0 <= j < |keys| ==> now[j] == if j < i then keys[j].(credit := b[j]) else keys[j])
       && total == EligibleTotal(Weights(keys)[..i], elig[..i])
       && (match Winner(b[..i], elig[..i])
           case Some(k) => index == k && best == b[k]
           case None => index == -1)
  }

  lemma ScanStep(keys: seq<Key>, elig: seq<bool>, i: int, now: seq<Key>, index: int, best: real, total: real)
    requires Scan(keys, elig, i, now, index, best, total) && i < |keys|
    ensures !elig[i] ==> Scan(keys, elig, i + 1, now, index, best, total)
    ensures elig[i] ==>
              var item := now[i].(credit := now[i].credit + now[i].weight);
              if index == -1 || item.credit > best
              then Scan(keys, elig, i + 1, now[i := item], i, item.credit, total + item.weight)
              else Scan(keys, elig, i + 1, now[i := item], index, best, total + item.weight)
  {
    var b, w := BumpedCredits(keys, elig), Weights(keys);
    assert b[..i + 1][..i] == b[..i] && elig[..i + 1][..i] == elig[..i] && w[..i + 1][..i] == w[..i];
  }

  /** The pool once the scan's winner has paid the total and taken its lease. */
  function Committed(p: Pool, now: int, keys: seq<Key>, k: nat, total: real): Pool
    requires k < |keys|
  {
    var name := keys[k].name;
    Pool(keys[k := keys[k].(credit := keys[k].credit - total)], Purge(p.cooling, now), p.dead,
         p.concurrency[name := InUse(p.concurrency, name) + 1])
  }

  /** What the finished scan knows: the acquire's outcome, short of paying and leasing. */
  ghost predicate Selected(p: Pool, cap: int, now: int, keys: seq<Key>, index: int, total: real) {
    match Acquire(p, cap, now).1
    case Some(k) =>
      && index == k && k < |keys| && keys[k].name == AcquiredName(p, cap, now)
      && Acquire(p, cap, now).0 == Committed(p, now, keys, k, total)
    case None =>
      && index == -1 && AcquiredName(p, cap, now) == ""
      && Acquire(p, cap, now).0 == Pool(keys, Purge(p.cooling, now), p.dead, p.concurrency)
  }

  lemma ScanDone(p: Pool, cap: int, now: int, keys: seq<Key>, index: int, best: real, total: real)
    requires Scan(p.active, Eligible(p, cap, now), |p.active|, keys, index, best, total)
    ensures Selected(p, cap, now, keys, index, total)
  {
    var elig, w := Eligible(p, cap, now), Weights(p.active);
    var b := BumpedCredits(p.active, elig);
    assert b[..|b|] == b && elig[..|elig|] == elig && w[..|w|] == w;
    if Winner(b, elig).Some? {
      var k := Winner(b, elig).value;
      assert keys[k := keys[k].(credit := keys[k].credit - total)] == WithCredits(p.active, b[k := b[k] - total]);
    } else {
      WinnerIsFirstMaximum(b, elig);
      assert keys == p.active;
    }
  }

  lemma PurgeFirst(p: Pool, cap: int, now: int)
    ensures Acquire(p.(cooling := Purge(p.cooling, now)), cap, now) == Acquire(p, cap, now)
  {
    var q := p.(cooling := Purge(p.cooling, now));
    assert Eligible(q, cap, now) == Eligible(p, cap, now);
    assert Purge(q.cooling, now) == Purge(p.cooling, now);
  }

  // ---------- the operations themselves ----------

  class Scheduler {
    var active: seq<Key>
    var cooling: map<string, int>
    var dead: set<string>
    var concurrency: map<string, int>

    function View(): Pool
      reads this
    {
      Pool(active, cooling, dead, concurrency)
    }

    constructor ()
      ensures View() == EMPTY_POOL
    {
      active, cooling, dead, concurrency := [], map[], {}, map[];
    }

    method AddKey(name: string, weight: real)
      modifies this
      ensures View() == Apply(old(View()), OpAdd(name, weight))
    {
      for i := 0 to |active|
        invariant active == old(active) && cooling == old(cooling) && dead == old(dead)
                  && concurrency == old(concurrency)
        invariant forall j :: 0 <= j < i ==> active[j].name != name
      {
        if active[i].name == name {
          active := active[i := active[i].(weight := weight)];
          return;
        }
      }
      active := active + [Key(name, weight, 0.0)];
    }

    /** Drops the cooling entries that have run out. */
    method CleanupExpired(now: int)
      modifies this`cooling
      ensures View() == Apply(old(View()), OpCleanup(now))
    {
      var todo := cooling.Keys;
      while todo != {}
        invariant todo <= old(cooling).Keys && todo <= cooling.Keys <= old(cooling).Keys
        invariant forall k :: k in cooling ==> cooling[k] == old(cooling)[k]
        invariant forall k :: k in old(cooling).Keys - todo ==> (k in cooling <==> old(cooling)[k] >= now)
        decreases todo
      {
        var k :| k in todo;
        if cooling[k] < now {
          cooling := cooling - {k};
        }
        todo := todo - {k};
      }
      assert cooling == Purge(old(cooling), now);
    }

    /** The selection loop: bumps every eligible key and remembers the first best one. */
    method SelectKey(cap: int, now: int) returns (selectedIndex: int, totalWeight: real)
      modifies this`active
      ensures Selected(old(View()), cap, now, active, selectedIndex, totalWeight)
    {
      ghost var p := View();
      ghost var elig := Eligible(p, cap, now);
      var selectedWeight := 0.0;
      selectedIndex, totalWeight := -1, 0.0;
      for i := 0 to |active|
        invariant Scan(p.active, elig, i, active, selectedIndex, selectedWeight, totalWeight)
      {
        ScanStep(p.active, elig, i, active, selectedIndex, selectedWeight, totalWeight);
        var item := active[i];
        if item.name in dead {
          continue;
        }
        if item.name in cooling && cooling[item.name] >= now {
          continue;
        }
        if InUse(concurrency, item.name) >= cap {
          continue;
        }
        item := item.(credit := item.credit + item.weight);
        active := active[i := item];
        totalWeight := totalWeight + item.weight;
        if selectedIndex == -1 || item.credit > selectedWeight {
          selectedIndex, selectedWeight := i, item.credit;
        }
      }
      ScanDone(p, cap, now, active, selectedIndex, selectedWeight, totalWeight);
    }

    method AcquireKey(cap: int, now: int) returns (key: string)
      modifies this
      ensures View() == Apply(old(View()), OpAcquire(cap, now))
      ensures key == AcquiredName(old(View()), cap, now)
    {
      PurgeFirst(View(), cap, now);
      CleanupExpired(now);
      var selectedIndex, totalWeight := SelectKey(cap, now);
      if selectedIndex == -1 {
        return "";
      }
      var chosen := active[selectedIndex];
      active := active[selectedIndex := chosen.(credit := chosen.credit - totalWeight)];
      concurrency := concurrency[chosen.name := InUse(concurrency, chosen.name) + 1];
      return chosen.name;
    }

    method TryAcquireSpecificKey(rawKey: string, rawCap: int, now: int) returns (ok: bool)
      modifies this
      ensures View() == Apply(old(View()), OpTryAcquire(rawKey, rawCap, now))
      ensures ok == Grants(old(View()), rawKey, rawCap, now)
    {
      var key := TrimSpace(rawKey);
      if key == "" {
        return false;
      }
      var cap := if rawCap <= 0 then 1 else rawCap;
      CleanupExpired(now);
      var found := false;
      for i := 0 to |active|
        invariant !found && forall j :: 0 <= j < i ==> active[j].name != key
      {
        if active[i].name == key {
          found := true;
          break;
        }
      }
      if !found || key in dead || (key in cooling && cooling[key] >= now) || InUse(concurrency, key) >= cap {
        return false;
      }
      concurrency := concurrency[key := InUse(concurrency, key) + 1];
      return true;
    }

    method ReleaseKey(key: string)
      modifies this`concurrency
      ensures View() == Apply(old(View()), OpRelease(key))
    {
      if key == "" {
        return;
      }
      if InUse(concurrency, key) > 0 {
        concurrency := concurrency[key := concurrency[key] - 1];
      }
    }

    method MarkCooling(key: string, until: int)
      modifies this`cooling
      ensures View() == Apply(old(View()), OpCool(key, until))
    {
      cooling := cooling[key := until];
    }

    method MarkDead(key: string)
      modifies this
      ensures View() == Apply(old(View()), OpDead(key))
    {
      dead := dead + {key};
      var i := 0;
      while i < |active|
        invariant 0 <= i <= |active|
        invariant active == old(active) && cooling == old(cooling)
        invariant dead == old(dead) + {key} && concurrency == old(concurrency)
        invariant forall j :: 0 <= j < i ==> active[j].name != key
      {
        if active[i].name == key {
          active := active[i := active[i].(credit := 0.0)];
          break;
        }
        i := i + 1;
      }
      concurrency := concurrency - {key};
    }

    method Reset()
      modifies this
      ensures View() == Apply(old(View()), OpReset)
    {
      active, cooling, dead, concurrency := [], map[], {}, map[];
    }
  }
}
