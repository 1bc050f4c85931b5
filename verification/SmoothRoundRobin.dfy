/**
 Smooth weighted round robin as an abstract relation on vectors of credits.

 One pick adds each eligible key's weight to its credit, chooses some key whose new credit is
 maximal among the eligible ones, and takes the whole eligible weight off that key.  Nothing
 here says how ties are broken, so every theorem holds for the Go loop and for the Lua script.
 */
module SmoothRoundRobin {

  function Sum(s: seq<real>): real {
    if s == [] then 0.0 else Sum(s[..|s| - 1]) + s[|s| - 1]
  }

  /** The combined weight of the eligible keys. */
  function EligibleTotal(w: seq<real>, elig: seq<bool>): real
    requires |w| == |elig|
  {
    var n := |w| - 1;
    if w == [] then 0.0 else EligibleTotal(w[..n], elig[..n]) + (if elig[n] then w[n] else 0.0)
  }

  function Bumped(w: seq<real>, elig: seq<bool>, cw: seq<real>): (b: seq<real>)
    requires |w| == |elig| == |cw|
    ensures |b| == |w|
  {
    seq(|w|, i requires 0 <= i < |w| => if elig[i] then cw[i] + w[i] else cw[i])
  }

  /** One pick of key `p` takes the credits `cw` to `after`. */
  ghost predicate Pick(w: seq<real>, elig: seq<bool>, cw: seq<real>, p: int, after: seq<real>) {
    && |w| == |elig| == |cw|
    && 0 <= p < |w| && elig[p]
    && var b := Bumped(w, elig, cw);
       && (forall j :: 0 <= j < |w| && elig[j] ==> b[j] <= b[p])
       && after == b[p := b[p] - EligibleTotal(w, elig)]
  }

  function AllEligible(n: nat): seq<bool> {
    seq(n, i => true)
  }

  function Zeros(n: nat): seq<real> {
    seq(n, i => 0.0)
  }

  /** Consecutive picks with every key eligible, from the credits `states[0]`. */
  ghost predicate Run(w: seq<real>, states: seq<seq<real>>, picks: seq<int>) {
    && |states| == |picks| + 1
    && |states[0]| == |w|
    && forall t {:trigger picks[t]} :: 0 <= t < |picks| ==>
        Pick(w, AllEligible(|w|), states[t], picks[t], states[t + 1])
  }

  /** A run of a pool whose keys have positive weights and have never been picked. */
  ghost predicate FreshRun(w: seq<real>, states: seq<seq<real>>, picks: seq<int>) {
    && Run(w, states, picks)
    && states[0] == Zeros(|w|)
    && forall i :: 0 <= i < |w| ==> w[i] > 0.0
  }

  /** How often key `i` was picked. */
  function Count(picks: seq<int>, i: int): nat {
    if picks == [] then 0
    else Count(picks[..|picks| - 1], i) + (if picks[|picks| - 1] == i then 1 else 0)
  }

  // ---------- sums ----------

  lemma {:induction false} SumUpdate(s: seq<real>, i: nat, v: real)
    requires i < |s|
    ensures Sum(s[i := v]) == Sum(s) - s[i] + v
  {
    var n := |s| - 1;
    if i == n {
      assert s[i := v][..n] == s[..n];
    } else {
      assert s[i := v][..n] == s[..n][i := v];
      SumUpdate(s[..n], i, v);
    }
  }

  lemma {:induction false} SumBumped(w: seq<real>, elig: seq<bool>, cw: seq<real>)
    requires |w| == |elig| == |cw|
    ensures Sum(Bumped(w, elig, cw)) == Sum(cw) + EligibleTotal(w, elig)
  {
    if w != [] {
      var n := |w| - 1;
      assert Bumped(w, elig, cw)[..n] == Bumped(w[..n], elig[..n], cw[..n]);
      SumBumped(w[..n], elig[..n], cw[..n]);
    }
  }

  lemma {:induction false} SumZeros(n: nat)
    ensures Sum(Zeros(n)) == 0.0
  {
    if n > 0 {
      assert Zeros(n)[..n - 1] == Zeros(n - 1);
      SumZeros(n - 1);
    }
  }

  lemma {:induction false} TotalOfAll(w: seq<real>)
    ensures EligibleTotal(w, AllEligible(|w|)) == Sum(w)
  {
    if w != [] {
      var n := |w| - 1;
      assert AllEligible(|w|)[..n] == AllEligible(n);
      TotalOfAll(w[..n]);
    }
  }

  lemma {:induction false} SumNonPositive(s: seq<real>)
    requires forall i :: 0 <= i < |s| ==> s[i] <= 0.0
    ensures Sum(s) <= 0.0
  {
    if s != [] {
      SumNonPositive(s[..|s| - 1]);
    }
  }

  lemma {:induction false} SumPositive(s: seq<real>)
    requires s != [] && forall i :: 0 <= i < |s| ==> s[i] > 0.0
    ensures Sum(s) > 0.0
  {
    if |s| > 1 {
      SumPositive(s[..|s| - 1]);
    }
  }

  /** n * x by repeated addition, which keeps the arithmetic of the run proofs linear. */
  function Times(n: nat, x: real): real {
    if n == 0 then 0.0 else Times(n - 1, x) + x
  }

  lemma {:induction false} TimesIsProduct(n: nat, x: real)
    ensures Times(n, x) == n as real * x
  {
    if n > 0 {
      TimesIsProduct(n - 1, x);
    }
  }

  /** If every entry is at least -c, no entry exceeds the sum by more than (|s| - 1) * c. */
  lemma EntryFromSum(s: seq<real>, c: real, i: nat)
    requires i < |s| && forall j :: 0 <= j < |s| ==> s[j] >= -c
    ensures s[i] <= Sum(s) + Times(|s| - 1, c)
  {
    SumUpdate(s, i, -c);
    SumLowerBound(s[i := -c], c);
  }

  lemma {:induction false} SumLowerBound(s: seq<real>, c: real)
    requires forall j :: 0 <= j < |s| ==> s[j] >= -c
    ensures Sum(s) >= -Times(|s|, c)
  {
    if s != [] {
      SumLowerBound(s[..|s| - 1], c);
    }
  }

  // ---------- one pick ----------

  /** Picking moves credit between keys but neither creates nor destroys any, whoever is eligible. */
  lemma PickConserves(w: seq<real>, elig: seq<bool>, cw: seq<real>, p: int, after: seq<real>)
    requires Pick(w, elig, cw, p, after)
    ensures |after| == |cw| && Sum(after) == Sum(cw)
  {
    SumBumped(w, elig, cw);
    SumUpdate(Bumped(w, elig, cw), p, Bumped(w, elig, cw)[p] - EligibleTotal(w, elig));
  }

  /** With all keys eligible, balanced credits above -T stay balanced and above -T. */
  lemma PickKeepsBounds(w: seq<real>, cw: seq<real>, p: int, after: seq<real>)
    requires Pick(w, AllEligible(|w|), cw, p, after)
    requires Sum(cw) == 0.0
    requires forall i :: 0 <= i < |w| ==> w[i] > 0.0
    requires forall i :: 0 <= i < |w| ==> cw[i] > -Sum(w)
    ensures |after| == |w| && Sum(after) == 0.0
    ensures forall i :: 0 <= i < |w| ==> after[i] > -Sum(w)
  {
    PickConserves(w, AllEligible(|w|), cw, p, after);
    TotalOfAll(w);
    SumBumped(w, AllEligible(|w|), cw);
    SumPositive(w);
    var b := Bumped(w, AllEligible(|w|), cw);
    if b[p] <= 0.0 {
      SumNonPositive(b);
      assert false;
    }
  }

  // ---------- whole runs ----------

  lemma {:induction false} RunBounds(w: seq<real>, states: seq<seq<real>>, picks: seq<int>, t: nat)
    requires FreshRun(w, states, picks) && t <= |picks| && w != []
    ensures |states[t]| == |w| && Sum(states[t]) == 0.0
    ensures forall i :: 0 <= i < |w| ==> states[t][i] > -Sum(w)
  {
    if t == 0 {
      SumZeros(|w|);
      SumPositive(w);
    } else {
      RunBounds(w, states, picks, t - 1);
      PickKeepsBounds(w, states[t - 1], picks[t - 1], states[t]);
    }
  }

  /** What one pick does to the credit of a key: it earns its weight, and pays the total if picked. */
  lemma PickCredit(w: seq<real>, cw: seq<real>, pick: int, after: seq<real>, i: nat)
    requires Pick(w, AllEligible(|w|), cw, pick, after) && i < |w|
    ensures |cw| == |after| == |w|
    ensures after[i] == cw[i] + w[i] - (if pick == i then Sum(w) else 0.0)
  {
    TotalOfAll(w);
  }

  /** The credit of a key is what it earned minus what its picks cost. */
  lemma {:induction false} CreditBalance(w: seq<real>, states: seq<seq<real>>, picks: seq<int>, t: nat, i: nat)
    requires FreshRun(w, states, picks) && t <= |picks| && i < |w|
    ensures |states[t]| == |w|
    ensures states[t][i] == Times(t, w[i]) - Times(Count(picks[..t], i), Sum(w))
  {
    if t > 0 {
      CreditBalance(w, states, picks, t - 1, i);
      assert Pick(w, AllEligible(|w|), states[t - 1], picks[t - 1], states[t]);
      PickCredit(w, states[t - 1], picks[t - 1], states[t], i);
      assert picks[..t][..t - 1] == picks[..t - 1];
    }
  }

  /** c picks out of t are within the share t*wi/total, short by at most n - 1 and over by less than 1. */
  ghost predicate WithinFairShare(t: nat, wi: real, total: real, c: nat, n: nat) {
    && total > 0.0
    && t as real * wi / total - (n as real - 1.0) <= c as real < t as real * wi / total + 1.0
  }

  /**
   Fairness at every prefix: after t picks over n keys of total weight T, each credit lies in
   (-T, (n-1)T], and the number of picks of key i is at least t*w_i/T - (n-1) and less than
   t*w_i/T + 1.
   */
  lemma PrefixFairness(w: seq<real>, states: seq<seq<real>>, picks: seq<int>, t: nat, i: nat)
    requires FreshRun(w, states, picks) && t <= |picks| && i < |w|
    ensures |states[t]| == |w| && -Sum(w) < states[t][i] <= Times(|w| - 1, Sum(w))
    ensures WithinFairShare(t, w[i], Sum(w), Count(picks[..t], i), |w|)
  {
    CreditBounds(w, states, picks, t, i);
    QuotientBounds(t, w[i], Sum(w), Count(picks[..t], i), |w|);
  }

  lemma CreditBounds(w: seq<real>, states: seq<seq<real>>, picks: seq<int>, t: nat, i: nat)
    requires FreshRun(w, states, picks) && t <= |picks| && i < |w|
    ensures |states[t]| == |w| && Sum(w) > 0.0
    ensures -Sum(w) < states[t][i] <= Times(|w| - 1, Sum(w))
    ensures states[t][i] == Times(t, w[i]) - Times(Count(picks[..t], i), Sum(w))
  {
    RunBounds(w, states, picks, t);
    EntryFromSum(states[t], Sum(w), i);
    CreditBalance(w, states, picks, t, i);
    SumPositive(w);
  }

  lemma QuotientBounds(t: nat, wi: real, total: real, c: nat, n: nat)
    requires total > 0.0 && n > 0
    requires -total < Times(t, wi) - Times(c, total) <= Times(n - 1, total)
    ensures WithinFairShare(t, wi, total, c, n)
  {
    TimesIsProduct(t, wi);
    TimesIsProduct(c, total);
    TimesIsProduct(n - 1, total);
    DivideThrough(t as real * wi, total, c as real, n as real - 1.0);
  }

  lemma DivideThrough(a: real, total: real, c: real, k: real)
    requires total > 0.0
    requires -total < a - c * total <= k * total
    ensures a / total - k <= c < a / total + 1.0
  {
    var q := a / total;
    assert a == q * total;
    SignOfFactor(q - c + 1.0, total);
    SignOfFactor(k + c - q, total);
  }

  lemma SignOfFactor(d: real, total: real)
    requires total > 0.0
    ensures d * total > 0.0 ==> d > 0.0
    ensures d * total >= 0.0 ==> d >= 0.0
  {
  }

  /** No key is passed over n*T/w_i times in a row: a wait of m picks has m * w_i < n * T. */
  lemma NoStarvation(w: seq<real>, states: seq<seq<real>>, picks: seq<int>, s: nat, t: nat, i: nat)
    requires FreshRun(w, states, picks) && s <= t <= |picks| && i < |w|
    requires i !in picks[s..t]
    ensures Times(t - s, w[i]) < Times(|w|, Sum(w))
  {
    CreditBounds(w, states, picks, s, i);
    CreditBounds(w, states, picks, t, i);
    CountUnchanged(picks, s, t, i);
    TimesDifference(s, t, w[i]);
    EarnedWhileWaiting(|w|, Sum(w), states[s][i], states[t][i], Times(t - s, w[i]));
  }

  lemma EarnedWhileWaiting(n: nat, total: real, before: real, after: real, earned: real)
    requires n > 0 && after - before == earned
    requires -total < before && after <= Times(n - 1, total)
    ensures earned < Times(n, total)
  {
  }

  lemma {:induction false} TimesDifference(s: nat, t: nat, x: real)
    requires s <= t
    ensures Times(t - s, x) == Times(t, x) - Times(s, x)
  {
    if s < t {
      TimesDifference(s, t - 1, x);
    }
  }

  lemma {:induction false} CountUnchanged(picks: seq<int>, s: nat, t: nat, i: int)
    requires s <= t <= |picks| && i !in picks[s..t]
    ensures Count(picks[..t], i) == Count(picks[..s], i)
  {
    if s < t {
      assert picks[s..t - 1] == picks[s..t][..t - 1 - s];
      assert picks[t - 1] == picks[s..t][t - 1 - s];
      assert picks[..t][..t - 1] == picks[..t - 1];
      CountUnchanged(picks, s, t - 1, i);
    }
  }

  // ---------- the exact period ----------

  function IntSum(s: seq<int>): int {
    if s == [] then 0 else IntSum(s[..|s| - 1]) + s[|s| - 1]
  }

  function Reals(s: seq<int>): (r: seq<real>)
    ensures |r| == |s|
  {
    seq(|s|, i requires 0 <= i < |s| => s[i] as real)
  }

  lemma {:induction false} SumReals(s: seq<int>)
    ensures Sum(Reals(s)) == IntSum(s) as real
  {
    if s != [] {
      assert Reals(s)[..|s| - 1] == Reals(s[..|s| - 1]);
      SumReals(s[..|s| - 1]);
    }
  }

  lemma {:induction false} ZeroSumOfNonNegative(s: seq<real>, i: nat)
    requires i < |s| && Sum(s) == 0.0 && forall j :: 0 <= j < |s| ==> s[j] >= 0.0
    ensures s[i] == 0.0
  {
    var neg := seq(|s|, j requires 0 <= j < |s| => -s[j]);
    NegatedSum(s, neg);
    SumUpdate(neg, i, 0.0);
    SumNonPositive(neg[i := 0.0]);
  }

  lemma {:induction false} NegatedSum(s: seq<real>, neg: seq<real>)
    requires |s| == |neg| && forall j :: 0 <= j < |s| ==> neg[j] == -s[j]
    ensures Sum(neg) == -Sum(s)
  {
    if s != [] {
      NegatedSum(s[..|s| - 1], neg[..|s| - 1]);
    }
  }

  lemma WholeMultiple(total: int, d: int)
    requires total > 0
    ensures total * d > -total ==> total * d >= 0
    ensures total * d == 0 ==> d == 0
  {
    if d < 0 {
      assert total * d <= total * -1;
    } else if d > 0 {
      assert total * d >= total;
    }
  }

  /** A multiple of T that lies above -T is not negative. */
  lemma MultipleAboveMinusOne(total: int, wi: int, c: nat)
    requires total > 0
    requires Times(total, wi as real) - Times(c, total as real) > -(total as real)
    ensures Times(total, wi as real) - Times(c, total as real) >= 0.0
    ensures Times(total, wi as real) == Times(c, total as real) ==> c == wi
  {
    TimesIsProduct(total, wi as real);
    TimesIsProduct(c, total as real);
    assert total as real * wi as real == (total * wi) as real;
    assert c as real * total as real == (total * c) as real;
    WholeMultiple(total, wi - c);
  }

  /** A fresh run with whole weights whose length is the total weight. */
  ghost predicate OnePeriod(ws: seq<int>, states: seq<seq<real>>, picks: seq<int>) {
    FreshRun(Reals(ws), states, picks) && |picks| == IntSum(ws)
  }

  /** After one full period every credit is a multiple of T, so it cannot be negative. */
  lemma PeriodCredit(ws: seq<int>, states: seq<seq<real>>, picks: seq<int>, i: nat)
    requires OnePeriod(ws, states, picks) && i < |ws|
    ensures |states[|picks|]| == |ws| && states[|picks|][i] >= 0.0
    ensures states[|picks|][i] == 0.0 ==> Count(picks, i) == ws[i]
  {
    assert picks[..|picks|] == picks;
    SumReals(ws);
    CreditBounds(Reals(ws), states, picks, |picks|, i);
    MultipleAboveMinusOne(IntSum(ws), ws[i], Count(picks, i));
  }

  lemma PeriodEntry(ws: seq<int>, states: seq<seq<real>>, picks: seq<int>, i: nat)
    requires OnePeriod(ws, states, picks) && i < |ws|
    ensures |states[|picks|]| == |ws| && states[|picks|][i] == 0.0 && Count(picks, i) == ws[i]
  {
    var last := states[|picks|];
    RunBounds(Reals(ws), states, picks, |picks|);
    forall j | 0 <= j < |ws| ensures last[j] >= 0.0 {
      PeriodCredit(ws, states, picks, j);
    }
    ZeroSumOfNonNegative(last, i);
    PeriodCredit(ws, states, picks, i);
  }

  /**
   Exact period: with positive whole weights summing to T and every key eligible, T picks from
   a fresh pool choose each key exactly its weight times and bring every credit back to 0.
   */
  lemma ExactPeriod(ws: seq<int>, states: seq<seq<real>>, picks: seq<int>)
    requires OnePeriod(ws, states, picks)
    ensures forall i :: 0 <= i < |ws| ==> Count(picks, i) == ws[i]
    ensures states[|picks|] == Zeros(|ws|)
  {
    forall i | 0 <= i < |ws|
      ensures |states[|picks|]| == |ws| && states[|picks|][i] == 0.0 && Count(picks, i) == ws[i]
    {
      PeriodEntry(ws, states, picks, i);
    }
    if ws != [] {
      PeriodEntry(ws, states, picks, 0);
    }
    assert states[|picks|] == Zeros(|ws|);
  }
}
