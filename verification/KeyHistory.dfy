/**
 The key scheduler judged by its history alone: which keys an operation may lease is said in terms of
 the operations that came before and of the leases that they answered with, not of the pool.
 */
module KeyHistory {
  import opened Text
  import opened SmoothRoundRobin
  import opened KeyScheduler

  /** The pool that a history leaves behind. */
  function After(ops: seq<Op>): Pool {
    RunOps(EMPTY_POOL, ops)
  }

  lemma {:induction false} RunOpsLast(p: Pool, ops: seq<Op>)
    requires ops != []
    ensures RunOps(p, ops) == Apply(RunOps(p, ops[..|ops| - 1]), ops[|ops| - 1])
    decreases |ops|
  {
    if |ops| > 1 {
      RunOpsLast(Apply(p, ops[0]), ops[1..]);
      assert ops[1..][..|ops| - 2] == ops[..|ops| - 1][1..];
    }
  }

  // ---------- what a history says ----------

  /** The lease that an operation answers with. */
  function Leased(p: Pool, op: Op): Option<string> {
    match op
    case OpAcquire(cap, now) => if Acquire(p, cap, now).1.Some? then Some(AcquiredName(p, cap, now)) else None
    case OpTryAcquire(key, cap, now) => if Grants(p, key, cap, now) then Some(TrimSpace(key)) else None
    case _ => None
  }

  /** The keys that were added, in the order in which they were first added. */
  function Added(ops: seq<Op>): seq<string> {
    if ops == [] then []
    else
      var before, op := Added(ops[..|ops| - 1]), ops[|ops| - 1];
      match op
      case OpReset => []
      case OpAdd(name, weight) => if name in before then before else before + [name]
      case _ => before
  }

  /** The weight that a key was added with, the last time. */
  function AddedWeight(ops: seq<Op>, k: string): real {
    if ops == [] then 0.0
    else if ops[|ops| - 1].OpAdd? && ops[|ops| - 1].name == k then ops[|ops| - 1].weight
    else AddedWeight(ops[..|ops| - 1], k)
  }

  predicate Dead(ops: seq<Op>, k: string) {
    && ops != [] && !ops[|ops| - 1].OpReset?
    && (ops[|ops| - 1] == OpDead(k) || Dead(ops[..|ops| - 1], k))
  }

  /** The time at which an operation looks at the cooling table. */
  function Clock(op: Op): Option<int> {
    match op
    case OpAcquire(cap, now) => Some(now)
    case OpTryAcquire(key, cap, now) => if TrimSpace(key) == "" then None else Some(now)
    case OpCleanup(now) => Some(now)
    case _ => None
  }

  /** How long a key cools: until the time it was last given, unless a later time has been seen since. */
  function CoolsUntil(ops: seq<Op>, k: string): Option<int> {
    if ops == [] then None
    else
      var before, op := CoolsUntil(ops[..|ops| - 1], k), ops[|ops| - 1];
      if op.OpReset? then None
      else if op.OpCool? && op.key == k then Some(op.until)
      else if before.Some? && Clock(op).Some? && Clock(op).value > before.value then None
      else before
  }

  /** The leases of a key that were answered and not given back; the death of a key writes them off. */
  function Held(ops: seq<Op>, k: string): int {
    if ops == [] then 0
    else
      var before, op := Held(ops[..|ops| - 1], k), ops[|ops| - 1];
      if op.OpReset? || op == OpDead(k) then 0
      else if op == OpRelease(k) && k != "" && before > 0 then before - 1
      else if Leased(After(ops[..|ops| - 1]), op) == Some(k) then before + 1
      else before
  }

  /** A key that was added, is not dead, does not cool at this time, and has fewer leases than the cap. */
  predicate Leasable(ops: seq<Op>, k: string, cap: int, now: int) {
    && k in Added(ops) && !Dead(ops, k)
    && (CoolsUntil(ops, k).Some? ==> CoolsUntil(ops, k).value < now)
    && Held(ops, k) < cap
  }

  // ---------- the pool and its history ----------

  function Names(active: seq<Key>): seq<string> {
    seq(|active|, i requires 0 <= i < |active| => active[i].name)
  }

  /** The marks and the counter of one key are those of the history. */
  ghost predicate Told(p: Pool, ops: seq<Op>, k: string) {
    && (k in p.dead <==> Dead(ops, k))
    && CoolsUntil(ops, k) == (if k in p.cooling then Some(p.cooling[k]) else None)
    && InUse(p.concurrency, k) == Held(ops, k)
  }

  lemma PoolStep(p: Pool, op: Op, k: string)
    ensures var q := Apply(p, op);
      && (k in q.dead <==> !op.OpReset? && (op == OpDead(k) || k in p.dead))
      && InUse(q.concurrency, k) ==
         (if op.OpReset? || op == OpDead(k) then 0
          else if op == OpRelease(k) && k != "" && InUse(p.concurrency, k) > 0 then InUse(p.concurrency, k) - 1
          else if Leased(p, op) == Some(k) then InUse(p.concurrency, k) + 1
          else InUse(p.concurrency, k))
  {
  }

  lemma CoolingStep(p: Pool, op: Op, k: string)
    ensures var q := Apply(p, op);
      if op.OpReset? then k !in q.cooling
      else if op.OpCool? && op.key == k then k in q.cooling && q.cooling[k] == op.until
      else if k in p.cooling && Clock(op).Some? && Clock(op).value > p.cooling[k] then k !in q.cooling
      else k in q.cooling <==> k in p.cooling
  {
  }

  lemma CoolingStays(p: Pool, op: Op, k: string)
    requires k in p.cooling && k in Apply(p, op).cooling && op != OpCool(k, Apply(p, op).cooling[k])
    ensures Apply(p, op).cooling[k] == p.cooling[k]
  {
  }

  lemma {:induction false} HistoryTold(ops: seq<Op>, k: string)
    ensures Told(After(ops), ops, k)
  {
    if ops != [] {
      var before, op := ops[..|ops| - 1], ops[|ops| - 1];
      HistoryTold(before, k);
      RunOpsLast(EMPTY_POOL, ops);
      ToldStep(After(before), ops, k);
    }
  }

  lemma ToldStep(p: Pool, ops: seq<Op>, k: string)
    requires ops != [] && p == After(ops[..|ops| - 1]) && Told(p, ops[..|ops| - 1], k)
    ensures Told(Apply(p, ops[|ops| - 1]), ops, k)
  {
    var op := ops[|ops| - 1];
    PoolStep(p, op, k);
    CoolingStep(p, op, k);
    if k in p.cooling && k in Apply(p, op).cooling && op != OpCool(k, Apply(p, op).cooling[k]) {
      CoolingStays(p, op, k);
    }
  }

  lemma NamesStep(p: Pool, op: Op)
    ensures Names(Apply(p, op).active) ==
            if op.OpReset? then []
            else if op.OpAdd? && op.name !in Names(p.active) then Names(p.active) + [op.name]
            else Names(p.active)
  {
    assert forall i :: 0 <= i < |p.active| ==> Names(p.active)[i] == p.active[i].name;
    if op.OpAcquire? {
      AcquireChoice(p, op.cap, op.now);
    }
    if op.OpAdd? && op.name !in Names(p.active) {
      assert Names(Apply(p, op).active) == Names(p.active) + [op.name];
    } else if !op.OpReset? {
      assert Names(Apply(p, op).active) == Names(p.active);
    }
  }

  lemma {:induction false} HistoryNames(ops: seq<Op>)
    ensures Names(After(ops).active) == Added(ops)
  {
    if ops != [] {
      HistoryNames(ops[..|ops| - 1]);
      RunOpsLast(EMPTY_POOL, ops);
      NamesStep(After(ops[..|ops| - 1]), ops[|ops| - 1]);
    }
  }

  /** The pool holds the keys of the history in their order, each with the weight it was last added with. */
  lemma {:induction false} HistoryWeights(ops: seq<Op>, i: nat)
    requires i < |Added(ops)|
    ensures var active := After(ops).active;
      i < |active| && active[i].name == Added(ops)[i] && active[i].weight == AddedWeight(ops, Added(ops)[i])
  {
    HistoryNames(ops);
    var before, op := ops[..|ops| - 1], ops[|ops| - 1];
    var p := After(before);
    HistoryNames(before);
    HistoryDistinct(before);
    RunOpsLast(EMPTY_POOL, ops);
    NamesStep(p, op);
    assert Names(After(ops).active)[i] == After(ops).active[i].name;
    if i < |Added(before)| {
      assert Names(p.active)[i] == p.active[i].name;
      HistoryWeights(before, i);
      WeightStep(p, op, i);
    }
  }

  lemma WeightStep(p: Pool, op: Op, i: nat)
    requires i < |p.active| && i < |Apply(p, op).active| && DistinctNames(p.active)
    ensures Apply(p, op).active[i].weight ==
            if op.OpAdd? && op.name == p.active[i].name then op.weight else p.active[i].weight
  {
    if op.OpAcquire? {
      AcquireChoice(p, op.cap, op.now);
      var q := Apply(p, op);
      assert Weights(q.active)[i] == Weights(p.active)[i];
    }
  }

  lemma {:induction false} HistoryDistinct(ops: seq<Op>)
    ensures DistinctNames(After(ops).active)
  {
    if ops != [] {
      HistoryDistinct(ops[..|ops| - 1]);
      RunOpsLast(EMPTY_POOL, ops);
      NamesKept(After(ops[..|ops| - 1]), ops[|ops| - 1]);
    }
  }

  // ---------- which leases are granted ----------

  lemma AvailableMeaning(ops: seq<Op>, k: string, cap: int, now: int)
    ensures k in Added(ops) && Available(After(ops), k, cap, now) <==> Leasable(ops, k, cap, now)
  {
    HistoryTold(ops, k);
  }

  lemma KnownMeaning(ops: seq<Op>, k: string)
    ensures IndexOf(After(ops).active, k).Some? <==> k in Added(ops)
  {
    var active := After(ops).active;
    HistoryNames(ops);
    assert forall i :: 0 <= i < |active| ==> Names(active)[i] == active[i].name;
  }

  /** A request for one key is granted exactly if the history leaves that key to be had. */
  lemma GrantedExactly(ops: seq<Op>, key: string, cap: int, now: int)
    ensures Leased(After(ops), OpTryAcquire(key, cap, now)) ==
            if TrimSpace(key) != "" && Leasable(ops, TrimSpace(key), if cap <= 0 then 1 else cap, now)
            then Some(TrimSpace(key)) else None
  {
    KnownMeaning(ops, TrimSpace(key));
    AvailableMeaning(ops, TrimSpace(key), if cap <= 0 then 1 else cap, now);
  }

  /** An acquire answers with a key that the history leaves to be had, and with none only if there is none. */
  lemma AcquiredExactly(ops: seq<Op>, cap: int, now: int)
    ensures match Leased(After(ops), OpAcquire(cap, now))
      case Some(k) => Leasable(ops, k, cap, now)
      case None => forall k :: k in Added(ops) ==> !Leasable(ops, k, cap, now)
  {
    var p := After(ops);
    AcquireChoice(p, cap, now);
    HistoryNames(ops);
    forall i | 0 <= i < |p.active|
      ensures p.active[i].name == Added(ops)[i]
      ensures Available(p, p.active[i].name, cap, now) <==> Leasable(ops, p.active[i].name, cap, now)
    {
      assert Names(p.active)[i] == p.active[i].name;
      AvailableMeaning(ops, p.active[i].name, cap, now);
    }
  }

  lemma LeasedIsLeasable(ops: seq<Op>, op: Op, k: string)
    requires Leased(After(ops), op) == Some(k)
    ensures Clock(op).Some? && exists cap :: Leasable(ops, k, cap, Clock(op).value)
  {
    match op
    case OpAcquire(cap, now) => AcquiredExactly(ops, cap, now);
    case OpTryAcquire(key, cap, now) => GrantedExactly(ops, key, cap, now);
  }

  // ---------- dead keys and cooling keys ----------

  lemma {:induction false} DeadStays(before: seq<Op>, k: string, after: seq<Op>)
    requires OpReset !in after
    ensures Dead(before + [OpDead(k)] + after, k)
  {
    var ops := before + [OpDead(k)] + after;
    if after != [] {
      DeadStays(before, k, after[..|after| - 1]);
      assert ops[..|ops| - 1] == before + [OpDead(k)] + after[..|after| - 1];
    }
  }

  /** A key that was marked dead is leased by no operation, whatever but a reset came in between. */
  lemma DeadKeyIsNotLeased(before: seq<Op>, k: string, after: seq<Op>, op: Op)
    requires OpReset !in after
    ensures Leased(After(before + [OpDead(k)] + after), op) != Some(k)
  {
    var ops := before + [OpDead(k)] + after;
    DeadStays(before, k, after);
    if Leased(After(ops), op) == Some(k) {
      LeasedIsLeasable(ops, op, k);
    }
  }

  /** Operations that neither reset the pool nor give the key another time. */
  ghost predicate LeaveCooling(ops: seq<Op>, k: string) {
    forall i :: 0 <= i < |ops| ==> !ops[i].OpReset? && !(ops[i].OpCool? && ops[i].key == k)
  }

  /** None of the operations has looked at the table at a time after `until`. */
  ghost predicate NoLater(ops: seq<Op>, until: int) {
    forall i :: 0 <= i < |ops| ==> Clock(ops[i]).Some? ==> Clock(ops[i]).value <= until
  }

  /** A key cools for as long as no operation sees a later time. */
  lemma {:induction false} CoolingStaysExactly(before: seq<Op>, k: string, until: int, after: seq<Op>)
    requires LeaveCooling(after, k)
    ensures CoolsUntil(before + [OpCool(k, until)] + after, k) == if NoLater(after, until) then Some(until) else None
  {
    var ops := before + [OpCool(k, until)] + after;
    if after != [] {
      var n := |after| - 1;
      CoolingStaysExactly(before, k, until, after[..n]);
      assert ops[..|ops| - 1] == before + [OpCool(k, until)] + after[..n];
      assert NoLater(after, until) <==>
             NoLater(after[..n], until) && (Clock(after[n]).Some? ==> Clock(after[n]).value <= until);
    }
  }

  /** While time does not run past `until` a key that cools is leased by no operation. */
  lemma CoolingKeyIsNotLeased(before: seq<Op>, k: string, until: int, after: seq<Op>, op: Op)
    requires LeaveCooling(after, k) && NoLater(after + [op], until)
    ensures Leased(After(before + [OpCool(k, until)] + after), op) != Some(k)
  {
    var ops := before + [OpCool(k, until)] + after;
    assert forall i :: 0 <= i < |after| ==> (after + [op])[i] == after[i];
    assert (after + [op])[|after|] == op;
    CoolingStaysExactly(before, k, until, after);
    if Leased(After(ops), op) == Some(k) {
      LeasedIsLeasable(ops, op, k);
    }
  }

  /**
   If the clock is set back, a key can be leased while it cools: exactly if some operation has seen
   the time after which it is free, for then its entry is gone.
   */
  lemma CoolingKeyLeasedExactly(before: seq<Op>, k: string, until: int, after: seq<Op>, cap: int, now: int)
    requires LeaveCooling(after, k) && TrimSpace(k) == k && k != "" && now <= until
    requires var ops := before + [OpCool(k, until)] + after;
      k in Added(ops) && !Dead(ops, k) && Held(ops, k) < cap && cap > 0
    ensures Leased(After(before + [OpCool(k, until)] + after), OpTryAcquire(k, cap, now)) == Some(k) <==>
            !NoLater(after, until)
  {
    CoolingStaysExactly(before, k, until, after);
    GrantedExactly(before + [OpCool(k, until)] + after, k, cap, now);
  }
}
