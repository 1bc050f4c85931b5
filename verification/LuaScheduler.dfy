/**
 The Redis implementation of the key pool, as far as its acquire script decides: the script
 walks the active sorted set in score order and keeps credits in a hash.
 */
module LuaScheduler {
  import opened Text
  import opened SmoothRoundRobin
  import opened KeyScheduler

  datatype Redis = Redis(
    scores: map<string, real>,
    dead: set<string>,
    cooling: map<string, int>,
    credits: map<string, real>,
    counters: map<string, int>)

  /** HGET key_current_weight, with "0" for a missing field. */
  function CreditOf(credits: map<string, real>, key: string): real {
    if key in credits then credits[key] else 0.0
  }

  /** Members of the set, each at most once. */
  ghost predicate Listable(scores: map<string, real>, order: seq<string>) {
    && (forall i :: 0 <= i < |order| ==> order[i] in scores)
    && forall i, j :: 0 <= i < j < |order| ==> order[i] != order[j]
  }

  /** ZRANGE 0 -1 of the active set: every member once, by ascending score. */
  ghost predicate ZRange(scores: map<string, real>, order: seq<string>) {
    && Listable(scores, order)
    && (forall k :: k in scores ==> k in order)
    && forall i, j :: 0 <= i < j < |order| ==> scores[order[i]] <= scores[order[j]]
  }

  /** The members in `order` as the keys of a Go pool. */
  ghost function Listed(scores: map<string, real>, credits: map<string, real>, order: seq<string>): (keys: seq<Key>)
    requires Listable(scores, order)
    ensures |keys| == |order|
  {
    seq(|order|, i requires 0 <= i < |order| => Key(order[i], scores[order[i]], CreditOf(credits, order[i])))
  }

  /** The pool as the Go scheduler would hold it, with its keys listed in `order`. */
  ghost function AsPool(r: Redis, order: seq<string>): Pool
    requires Listable(r.scores, order)
  {
    Pool(Listed(r.scores, r.credits, order), r.cooling, r.dead, r.counters)
  }

  /** One call of the acquire script: what it finds, what it answers, and what it leaves. */
  datatype Call = Call(before: Redis, cap: int, now: int, answer: string, after: Redis)

  /** The pool that the Go scheduler would leave. */
  ghost function GoAfter(c: Call, order: seq<string>): Pool
    requires Listable(c.before.scores, order)
  {
    Acquire(AsPool(c.before, order), c.cap, c.now).0
  }

  /** Credits with every usable key bumped. */
  ghost predicate BumpedTo(p: Pool, cap: int, now: int, keys: seq<Key>) {
    Credits(keys) == BumpedCredits(p.active, Eligible(p, cap, now))
  }

  /** Everything usable has been bumped, and nobody has paid or leased. */
  ghost predicate BumpedOnly(c: Call, order: seq<string>)
    requires Listable(c.before.scores, order)
  {
    && c.after == c.before.(credits := c.after.credits)
    && BumpedTo(AsPool(c.before, order), c.cap, c.now, Listed(c.after.scores, c.after.credits, order))
  }

  /** The script leaves the credits and the counters that the Go scheduler would leave. */
  ghost predicate LikeGo(c: Call, order: seq<string>)
    requires Listable(c.before.scores, order)
  {
    && c.after == c.before.(credits := c.after.credits, counters := GoAfter(c, order).concurrency)
    && Listed(c.after.scores, c.after.credits, order) == GoAfter(c, order).active
  }

  /**
   The outcome of the script: the name that the Go scheduler would answer; and its credits and
   counters, unless the winner's name is empty, which the script takes for "no winner".
   */
  ghost predicate Outcome(c: Call, order: seq<string>) {
    && ZRange(c.before.scores, order)
    && c.answer == AcquiredName(AsPool(c.before, order), c.cap, c.now)
    && if Leaks(AsPool(c.before, order), c.cap, c.now) then BumpedOnly(c, order) else LikeGo(c, order)
  }

  /**
   Script and Go scheduler agree on credits and counters if and only if the first best key is not
   one with an empty name.
   */
  lemma AgreesUnlessNameless(c: Call, order: seq<string>)
    requires Outcome(c, order)
    ensures var p := AsPool(c.before, order);
      LikeGo(c, order) <==> !exists i :: FirstBest(p, c.cap, c.now, i) && order[i] == ""
  {
    var p := AsPool(c.before, order);
    LeakCondition(p, c.cap, c.now);
    assert forall i :: 0 <= i < |order| ==> p.active[i].name == order[i];
  }

  /** A nameless winner takes no lease and pays nothing back: the eligible weight is created. */
  lemma NamelessCreatesCredit(c: Call, order: seq<string>)
    requires Outcome(c, order) && Leaks(AsPool(c.before, order), c.cap, c.now)
    ensures c.answer == "" && c.after.counters == c.before.counters
    ensures var p := AsPool(c.before, order);
      Sum(Credits(AsPool(c.after, order).active)) ==
      Sum(Credits(p.active)) + EligibleTotal(Weights(p.active), Eligible(p, c.cap, c.now))
  {
    var p := AsPool(c.before, order);
    SumBumped(Weights(p.active), Eligible(p, c.cap, c.now), Credits(p.active));
  }

  // ---------- consecutive calls ----------

  /** Between two calls other commands may change everything but scores and credits. */
  ghost predicate FairCalls(order: seq<string>, calls: seq<Call>) {
    && order != [] && "" !in order
    && (forall t :: 0 <= t < |calls| ==> FairCall(order, calls[t]))
    && forall t :: 0 <= t < |calls| - 1 ==> Continues(calls[t].after, calls[t + 1].before)
  }

  ghost predicate Continues(r: Redis, later: Redis) {
    later.scores == r.scores && later.credits == r.credits
  }

  /** A call that finds every key usable. */
  ghost predicate FairCall(order: seq<string>, c: Call) {
    Outcome(c, order) && Eligible(AsPool(c.before, order), c.cap, c.now) == AllEligible(|order|)
  }

  function PositionOf(order: seq<string>, key: string): (i: int)
    ensures key in order <==> i < |order|
    ensures 0 <= i <= |order| && (i < |order| ==> order[i] == key)
  {
    if order == [] then 0
    else if order[0] == key then 0
    else
      assert key in order <==> key in order[1..];
      1 + PositionOf(order[1..], key)
  }

  /** Which keys the calls answered, as positions in the score order. */
  function Answers(order: seq<string>, calls: seq<Call>): (picks: seq<int>)
    ensures |picks| == |calls|
  {
    seq(|calls|, t requires 0 <= t < |calls| => PositionOf(order, calls[t].answer))
  }

  /** The weights, in score order, of the keys that the calls choose from. */
  ghost function ScoresOf(scores: map<string, real>, order: seq<string>): (w: seq<real>)
    requires Listable(scores, order)
    ensures |w| == |order|
  {
    seq(|order|, i requires 0 <= i < |order| => scores[order[i]])
  }

  function CreditsOf(r: Redis, order: seq<string>): (c: seq<real>)
    ensures |c| == |order|
  {
    seq(|order|, i requires 0 <= i < |order| => CreditOf(r.credits, order[i]))
  }

  lemma ListedParts(r: Redis, order: seq<string>)
    requires Listable(r.scores, order)
    ensures Weights(AsPool(r, order).active) == ScoresOf(r.scores, order)
    ensures Credits(AsPool(r, order).active) == CreditsOf(r, order)
  {
  }

  /** A fair call answers the key that the Go scheduler picks, and leaves what that leaves. */
  lemma FairCallAnswers(order: seq<string>, c: Call)
    requires FairCall(order, c) && order != [] && "" !in order
    ensures LikeGo(c, order)
    ensures Acquire(AsPool(c.before, order), c.cap, c.now).1 == Some(PositionOf(order, c.answer))
  {
    var p := AsPool(c.before, order);
    assert forall i :: 0 <= i < |order| ==> p.active[i].name == order[i];
    LeakCondition(p, c.cap, c.now);
    AcquireChoice(p, c.cap, c.now);
    assert AllEligible(|order|)[0];
    assert Available(p, p.active[0].name, c.cap, c.now);
  }

  /** A fair call makes one pick of the abstract round robin. */
  lemma FairCallPicks(order: seq<string>, c: Call)
    requires FairCall(order, c) && order != [] && "" !in order
    ensures c.after.scores == c.before.scores
    ensures Pick(ScoresOf(c.before.scores, order), AllEligible(|order|),
                 CreditsOf(c.before, order), PositionOf(order, c.answer), CreditsOf(c.after, order))
  {
    FairCallAnswers(order, c);
    AcquireChoice(AsPool(c.before, order), c.cap, c.now);
    ListedParts(c.before, order);
    ListedParts(c.after, order);
  }

  /** Consecutive calls that find every key usable are a run of the abstract round robin. */
  lemma CallsAreRoundRobin(order: seq<string>, calls: seq<Call>) returns (states: seq<seq<real>>)
    requires FairCalls(order, calls) && calls != []
    ensures Run(ScoresOf(calls[0].before.scores, order), states, Answers(order, calls))
    ensures states[0] == CreditsOf(calls[0].before, order)
    ensures states[|calls|] == CreditsOf(calls[|calls| - 1].after, order)
  {
    var n := |calls|;
    states := seq(n, t requires 0 <= t < n => CreditsOf(calls[t].before, order))
        + [CreditsOf(calls[n - 1].after, order)];
    forall t | 0 <= t < n
      ensures Pick(ScoresOf(calls[0].before.scores, order), AllEligible(|order|),
                   states[t], Answers(order, calls)[t], states[t + 1])
    {
      FairCallPicks(order, calls[t]);
      ScoresStay(order, calls, t);
      if t + 1 < n {
        assert CreditsOf(calls[t + 1].before, order) == CreditsOf(calls[t].after, order);
      }
    }
  }

  lemma {:induction false} ScoresStay(order: seq<string>, calls: seq<Call>, t: nat)
    requires FairCalls(order, calls) && t < |calls|
    ensures calls[t].before.scores == calls[0].before.scores
  {
    if t > 0 {
      ScoresStay(order, calls, t - 1);
      ScoresKept(order, calls, t - 1);
    }
  }

  lemma ScoresKept(order: seq<string>, calls: seq<Call>, t: nat)
    requires FairCalls(order, calls) && t + 1 < |calls|
    ensures calls[t + 1].before.scores == calls[t].before.scores
  {
    assert FairCall(order, calls[t]);
    assert Continues(calls[t].after, calls[t + 1].before);
  }

  /**
   The exact period, for the script: with positive whole scores of sum T and no credit at first,
   T calls answer each key exactly its score times and bring every credit back to 0.
   */
  lemma ScriptPeriod(order: seq<string>, calls: seq<Call>, ws: seq<int>)
    requires FairCalls(order, calls) && calls != [] && |calls| == IntSum(ws)
    requires ScoresOf(calls[0].before.scores, order) == Reals(ws) && forall i :: 0 <= i < |ws| ==> ws[i] > 0
    requires CreditsOf(calls[0].before, order) == Zeros(|order|)
    ensures forall i :: 0 <= i < |ws| ==> Count(Answers(order, calls), i) == ws[i]
    ensures CreditsOf(calls[|calls| - 1].after, order) == Zeros(|order|)
  {
    var states := CallsAreRoundRobin(order, calls);
    assert |ws| == |order|;
    assert OnePeriod(ws, states, Answers(order, calls));
    ExactPeriod(ws, states, Answers(order, calls));
  }

  /** The fair share at every prefix, for the script. */
  lemma ScriptFairness(order: seq<string>, calls: seq<Call>, t: nat, i: nat)
    requires FairCalls(order, calls) && calls != [] && t <= |calls| && i < |order|
    requires CreditsOf(calls[0].before, order) == Zeros(|order|)
    requires forall k :: k in order ==> calls[0].before.scores[k] > 0.0
    ensures var w := ScoresOf(calls[0].before.scores, order);
      WithinFairShare(t, w[i], Sum(w), Count(Answers(order, calls)[..t], i), |order|)
  {
    var states := CallsAreRoundRobin(order, calls);
    PrefixFairness(ScoresOf(calls[0].before.scores, order), states, Answers(order, calls), t, i);
  }

  // ---------- the script itself ----------

  /** The script's loop variables after `i` rounds; `index` is where the selected key stands. */
  ghost predicate Visited(p: Pool, elig: seq<bool>, order: seq<string>, i: int, keys: seq<Key>,
                          index: int, key: string, best: Option<real>, total: real) {
    && -1 <= index < |order| && (best.None? <==> index == -1)
    && key == (if index == -1 then "" else order[index])
    && Scan(p.active, elig, i, keys, index, if best.Some? then best.value else 0.0, total)
  }

  lemma SetCredit(scores: map<string, real>, credits: map<string, real>, order: seq<string>, i: nat, v: real)
    requires Listable(scores, order) && i < |order|
    ensures var keys := Listed(scores, credits, order);
      Listed(scores, credits[order[i] := v], order) == keys[i := keys[i].(credit := v)]
  {
  }

  /** What the script does with the i-th key, and which variables of its loop that leaves. */
  lemma VisitStep(p: Pool, elig: seq<bool>, order: seq<string>, i: int, keys: seq<Key>,
                  index: int, key: string, best: Option<real>, total: real)
    requires |order| == |p.active| && 0 <= i < |order|
    requires Visited(p, elig, order, i, keys, index, key, best, total)
    ensures |keys| == |elig| == |order|
    ensures !elig[i] ==> Visited(p, elig, order, i + 1, keys, index, key, best, total)
    ensures elig[i] ==>
              var item := keys[i].(credit := keys[i].credit + keys[i].weight);
              if best.None? || item.credit > best.value
              then Visited(p, elig, order, i + 1, keys[i := item], i, order[i], Some(item.credit), total + item.weight)
              else Visited(p, elig, order, i + 1, keys[i := item], index, key, best, total + item.weight)
  {
    ScanStep(p.active, elig, i, keys, index, if best.Some? then best.value else 0.0, total);
  }

  /** The three tests of the script. */
  predicate Usable(r: Redis, key: string, cap: int, now: int) {
    key !in r.dead && (key !in r.cooling || r.cooling[key] < now) && InUse(r.counters, key) < cap
  }

  lemma EligibleAt(r: Redis, order: seq<string>, cap: int, now: int, i: nat)
    requires Listable(r.scores, order) && i < |order|
    ensures Eligible(AsPool(r, order), cap, now)[i] == Usable(r, order[i], cap, now)
  {
    assert AsPool(r, order).active[i].name == order[i];
  }

  class Script {
    var scores: map<string, real>
    var dead: set<string>
    var cooling: map<string, int>
    var credits: map<string, real>
    var counters: map<string, int>

    function View(): Redis
      reads this
    {
      Redis(scores, dead, cooling, credits, counters)
    }

    /** One round of the loop: HSET of the new credit of a usable key. */
    method Visit(order: seq<string>, i: int, key: string, best: Option<real>, total: real, cap: int, now: int,
                 ghost p: Pool, ghost elig: seq<bool>, ghost index: int)
      returns (key': string, best': Option<real>, total': real, ghost index': int)
      requires Listable(scores, order) && 0 <= i < |order| == |p.active| == |elig|
      requires Visited(p, elig, order, i, Listed(scores, credits, order), index, key, best, total)
      requires elig[i] == Usable(View(), order[i], cap, now)
      modifies this`credits
      ensures Visited(p, elig, order, i + 1, Listed(scores, credits, order), index', key', best', total')
    {
      key', best', total', index' := key, best, total, index;
      VisitStep(p, elig, order, i, Listed(scores, credits, order), index, key, best, total);
      if Usable(View(), order[i], cap, now) {
        var newWeight := CreditOf(credits, order[i]) + scores[order[i]];
        SetCredit(scores, credits, order, i, newWeight);
        credits := credits[order[i] := newWeight];
        total' := total + scores[order[i]];
        if best.None? || newWeight > best.value {
          key', best', index' := order[i], Some(newWeight), i;
        }
      }
    }

    /** The bumps of all usable keys, in score order. */
    method Bump(order: seq<string>, cap: int, now: int)
      returns (selectedKey: string, totalWeight: real)
      requires ZRange(scores, order)
      modifies this`credits
      ensures Outcome(Call(old(View()), cap, now, selectedKey, Left(View(), selectedKey, totalWeight)), order)
    {
      ghost var p := AsPool(View(), order);
      ghost var elig := Eligible(p, cap, now);
      var selectedWeight := None;
      selectedKey, totalWeight := "", 0.0;
      ghost var index := -1;
      for i := 0 to |order|
        invariant Visited(p, elig, order, i, Listed(scores, credits, order), index, selectedKey, selectedWeight,
                          totalWeight)
      {
        EligibleAt(old(View()), order, cap, now, i);
        selectedKey, selectedWeight, totalWeight, index :=
          Visit(order, i, selectedKey, selectedWeight, totalWeight, cap, now, p, elig, index);
      }
      AllVisited(old(View()), order, cap, now, credits, index, selectedKey, selectedWeight, totalWeight);
      BumpsLeave(old(View()), order, cap, now, credits, selectedKey, index, totalWeight);
    }

    /** The whole script. */
    method Acquire(order: seq<string>, cap: int, now: int) returns (answer: string)
      requires ZRange(scores, order)
      modifies this`credits, this`counters
      ensures Outcome(Call(old(View()), cap, now, answer, View()), order)
    {
      var selectedKey, totalWeight := Bump(order, cap, now);
      if selectedKey == "" {
        return "";
      }
      Lease(selectedKey, totalWeight);
      return selectedKey;
    }

    /** HINCRBYFLOAT and INCR for the selected key. */
    method Lease(key: string, total: real)
      requires key != ""
      modifies this`credits, this`counters
      ensures View() == Left(old(View()), key, total)
    {
      credits := credits[key := CreditOf(credits, key) - total];
      counters := counters[key := InUse(counters, key) + 1];
    }
  }

  /** What the script leaves once its loop is done: with a selected name it pays the total and takes the lease. */
  function Left(r: Redis, key: string, total: real): Redis {
    if key == "" then r
    else r.(credits := r.credits[key := CreditOf(r.credits, key) - total],
            counters := r.counters[key := InUse(r.counters, key) + 1])
  }

  lemma BumpsLeave(before: Redis, order: seq<string>, cap: int, now: int, credits: map<string, real>,
                   key: string, index: int, total: real)
    requires ZRange(before.scores, order) && LoopDone(before, order, cap, now, credits, key, index, total)
    ensures Outcome(Call(before, cap, now, key, Left(before.(credits := credits), key, total)), order)
  {
    if key == "" {
      NothingLeased(before, order, cap, now, credits, index, total);
    } else {
      WinnerLeased(before, order, cap, now, credits, key, index, total);
    }
  }

  /** What the finished loop knows. */
  ghost predicate LoopDone(before: Redis, order: seq<string>, cap: int, now: int, credits: map<string, real>,
                           key: string, index: int, total: real) {
    && Listable(before.scores, order)
    && -1 <= index < |order| && key == (if index == -1 then "" else order[index])
    && Selected(AsPool(before, order), cap, now, Listed(before.scores, credits, order), index, total)
    && BumpedTo(AsPool(before, order), cap, now, Listed(before.scores, credits, order))
  }

  lemma AllVisited(before: Redis, order: seq<string>, cap: int, now: int, credits: map<string, real>,
                   index: int, key: string, best: Option<real>, total: real)
    requires Listable(before.scores, order)
    requires Visited(AsPool(before, order), Eligible(AsPool(before, order), cap, now), order, |order|,
                     Listed(before.scores, credits, order), index, key, best, total)
    ensures LoopDone(before, order, cap, now, credits, key, index, total)
  {
    ScanDone(AsPool(before, order), cap, now, Listed(before.scores, credits, order), index,
             if best.Some? then best.value else 0.0, total);
  }

  /** An empty selected name means "no winner", or a winner of that name that has only been bumped. */
  lemma NothingLeased(before: Redis, order: seq<string>, cap: int, now: int, credits: map<string, real>,
                      index: int, total: real)
    requires ZRange(before.scores, order) && LoopDone(before, order, cap, now, credits, "", index, total)
    ensures Outcome(Call(before, cap, now, "", Left(before.(credits := credits), "", total)), order)
  {
    var p := AsPool(before, order);
    if index >= 0 {
      assert InUse(Acquire(p, cap, now).0.concurrency, "") == InUse(p.concurrency, "") + 1;
    }
  }

  /** A winner with a name pays the total and takes a lease, as in the Go scheduler. */
  lemma WinnerLeased(before: Redis, order: seq<string>, cap: int, now: int, credits: map<string, real>,
                     key: string, index: int, total: real)
    requires ZRange(before.scores, order) && LoopDone(before, order, cap, now, credits, key, index, total) && key != ""
    ensures Outcome(Call(before, cap, now, key, Left(before.(credits := credits), key, total)), order)
  {
    SetCredit(before.scores, credits, order, index, CreditOf(credits, key) - total);
  }
}
