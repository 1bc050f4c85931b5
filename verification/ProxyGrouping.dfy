/**
 Binding keys to the members of a proxy group: members are ranked by health, each stands in a list
 as often as its preference weight says, and the keys take the list in turn.
 */
module ProxyGrouping {
  import opened Text
  import opened StoreData

  // ---------- the order of members ----------

  function LowerChar(c: char): char {
    if 'A' <= c <= 'Z' then c - 'A' + 'a' else c
  }

  /** strings.ToLower, for ASCII letters */
  function Lower(s: string): string {
    seq(|s|, i requires 0 <= i < |s| => LowerChar(s[i]))
  }

  /** strings.Compare, but for the empty string first */
  predicate Less(a: string, b: string) {
    b != "" && (a == "" || a[0] < b[0] || (a[0] == b[0] && Less(a[1..], b[1..])))
  }

  const NO_LATENCY := 0x3fff_ffff_ffff_ffff

  /** proxyHealthRank */
  function Rank(p: Proxy): int {
    if !p.enabled then 3 else if p.lastTest.None? then 2 else if p.lastTest.value.success then 0 else 1
  }

  /** proxyLatencyValue */
  function Latency(p: Proxy): int {
    if p.lastTest.None? || p.lastTest.value.responseTime <= 0 then NO_LATENCY else p.lastTest.value.responseTime
  }

  function LastTested(p: Proxy): int {
    if p.lastTest.None? then 0 else p.lastTest.value.testedAt
  }

  function Successes(history: seq<TestRecord>): nat {
    if history == [] then 0
    else Successes(history[..|history| - 1]) + (if history[|history| - 1].success then 1 else 0)
  }

  function GroupKey(p: Proxy): string {
    Lower(TrimSpace(p.group))
  }

  /** compareProxyHealth(a, b) < 0 */
  predicate Healthier(a: Proxy, b: Proxy) {
    if Rank(a) != Rank(b) then Rank(a) < Rank(b)
    else if Latency(a) != Latency(b) then Latency(a) < Latency(b)
    else if LastTested(a) != LastTested(b) then LastTested(a) > LastTested(b)
    else if Successes(a.history) != Successes(b.history) then Successes(a.history) > Successes(b.history)
    else if GroupKey(a) != GroupKey(b) then Less(GroupKey(a), GroupKey(b))
    else Less(Lower(a.name), Lower(b.name))
  }

  lemma {:induction false} LessIsAnOrder(a: string, b: string, c: string)
    ensures !(Less(a, b) && Less(b, a))
    ensures !Less(a, b) && !Less(b, a) ==> a == b
    ensures Less(a, b) && Less(b, c) ==> Less(a, c)
  {
    if a != "" && b != "" {
      if c != "" {
        LessIsAnOrder(a[1..], b[1..], c[1..]);
      } else {
        LessIsAnOrder(a[1..], b[1..], "");
      }
      assert a == [a[0]] + a[1..] && b == [b[0]] + b[1..];
    }
  }

  /** The comparison is a strict weak order: it cannot run in circles, and ties are as good as equal. */
  lemma HealthierIsAnOrder(a: Proxy, b: Proxy, c: Proxy)
    ensures !(Healthier(a, b) && Healthier(b, a))
    ensures Healthier(a, b) && Healthier(b, c) ==> Healthier(a, c)
    ensures !Healthier(b, a) && !Healthier(c, b) ==> !Healthier(c, a)
  {
    LessIsAnOrder(GroupKey(a), GroupKey(b), GroupKey(c));
    LessIsAnOrder(GroupKey(b), GroupKey(c), GroupKey(a));
    LessIsAnOrder(GroupKey(c), GroupKey(b), GroupKey(a));
    LessIsAnOrder(Lower(a.name), Lower(b.name), Lower(c.name));
    LessIsAnOrder(Lower(b.name), Lower(c.name), Lower(a.name));
    LessIsAnOrder(Lower(c.name), Lower(b.name), Lower(a.name));
  }

  predicate Working(p: Proxy) {
    p.enabled && p.lastTest.Some? && p.lastTest.value.success
  }

  predicate Failing(p: Proxy) {
    p.enabled && p.lastTest.Some? && !p.lastTest.value.success
  }

  predicate Untried(p: Proxy) {
    p.enabled && p.lastTest.None?
  }

  predicate SameCondition(a: Proxy, b: Proxy) {
    Working(a) == Working(b) && Failing(a) == Failing(b) && Untried(a) == Untried(b)
  }

  /** The time that the last test took, if it took any. */
  function TookTime(p: Proxy): Option<int> {
    if p.lastTest.Some? && p.lastTest.value.responseTime > 0 then Some(p.lastTest.value.responseTime) else None
  }

  /** Equally fast: the times are equal, or neither took any. */
  predicate SameTime(a: Proxy, b: Proxy) {
    TookTime(a) == TookTime(b)
  }

  predicate SameTestTime(a: Proxy, b: Proxy) {
    var x, y := if a.lastTest.Some? then a.lastTest.value.testedAt else 0,
        if b.lastTest.Some? then b.lastTest.value.testedAt else 0;
    x == y
  }

  /** Working before failing before untried before disabled. */
  lemma ConditionCounts(a: Proxy, b: Proxy)
    ensures Working(a) && !Working(b) ==> Healthier(a, b)
    ensures Failing(a) && !Working(b) && !Failing(b) ==> Healthier(a, b)
    ensures Untried(a) && !b.enabled ==> Healthier(a, b)
  {
  }

  /** In the same condition the faster one comes first, one that took some time before one that took none. */
  lemma TimeCounts(a: Proxy, b: Proxy)
    requires SameCondition(a, b) && TookTime(a).Some? && TookTime(a).value < 0x3fff_ffff_ffff_ffff
    ensures TookTime(b).None? || TookTime(a).value < TookTime(b).value ==> Healthier(a, b)
  {
  }

  /** Among equally fast ones the one that was tested later. */
  lemma TestTimeCounts(a: Proxy, b: Proxy)
    requires SameCondition(a, b) && SameTime(a, b) && a.lastTest.Some? && a.lastTest.value.testedAt > 0
    ensures b.lastTest.None? || a.lastTest.value.testedAt > b.lastTest.value.testedAt ==> Healthier(a, b)
  {
  }

  lemma {:induction false} SuccessesAreCounted(history: seq<TestRecord>)
    ensures Successes(history) == |set i | 0 <= i < |history| && history[i].success|
  {
    var all := set i | 0 <= i < |history| && history[i].success;
    if history == [] {
      assert all == {};
    } else {
      var n := |history| - 1;
      var before := set i | 0 <= i < n && history[..n][i].success;
      SuccessesAreCounted(history[..n]);
      assert all == before + (if history[n].success then {n} else {});
    }
  }

  /** Then the one with more successes on record, then the one whose group and whose name come first. */
  lemma RecordAndNameCount(a: Proxy, b: Proxy)
    requires SameCondition(a, b) && SameTime(a, b) && SameTestTime(a, b)
    ensures Successes(a.history) > Successes(b.history) ==> Healthier(a, b)
    ensures var g, h := Lower(TrimSpace(a.group)), Lower(TrimSpace(b.group));
      Successes(a.history) == Successes(b.history) && (ComesFirst(g, h) || (g == h && NameFirst(a, b))) ==>
          Healthier(a, b)
  {
    LessMeaning(GroupKey(a), GroupKey(b));
    LessMeaning(Lower(a.name), Lower(b.name));
    LessIsAnOrder(GroupKey(a), GroupKey(a), GroupKey(a));
  }

  ghost predicate NameFirst(a: Proxy, b: Proxy) {
    ComesFirst(Lower(a.name), Lower(b.name))
  }

  /** In the order of a dictionary: a proper prefix comes first, and otherwise the first difference counts. */
  ghost predicate ComesFirst(a: string, b: string) {
    exists n :: DiffersAt(a, b, n) && (n == |a| || (n < |b| && a[n] < b[n]))
  }

  ghost predicate DiffersAt(a: string, b: string, n: int) {
    0 <= n <= |a| && n <= |b| && a != b && a[..n] == b[..n] && (n < |a| && n < |b| ==> a[n] != b[n])
  }

  lemma SameStart(a: string, b: string, n: int)
    requires DiffersAt(a, b, n) && n > 0
    ensures a[0] == b[0]
  {
    assert a[..n][0] == b[..n][0];
  }

  lemma {:induction false} LessComesFirst(a: string, b: string)
    requires Less(a, b)
    ensures ComesFirst(a, b)
  {
    if a == "" || a[0] < b[0] {
      assert DiffersAt(a, b, 0);
    } else {
      LessComesFirst(a[1..], b[1..]);
      var n :| DiffersAt(a[1..], b[1..], n) && (n == |a| - 1 || (n < |b| - 1 && a[1..][n] < b[1..][n]));
      assert a[..n + 1] == [a[0]] + a[1..][..n] && b[..n + 1] == [b[0]] + b[1..][..n];
      assert DiffersAt(a, b, n + 1);
    }
  }

  lemma {:induction false} FirstIsLess(a: string, b: string)
    requires ComesFirst(a, b)
    ensures Less(a, b)
  {
    var n :| DiffersAt(a, b, n) && (n == |a| || (n < |b| && a[n] < b[n]));
    if n > 0 {
      SameStart(a, b, n);
      assert a[1..][..n - 1] == a[..n][1..] && b[1..][..n - 1] == b[..n][1..];
      assert a == [a[0]] + a[1..] && b == [b[0]] + b[1..];
      assert DiffersAt(a[1..], b[1..], n - 1);
      FirstIsLess(a[1..], b[1..]);
    }
  }

  lemma LessMeaning(a: string, b: string)
    ensures Less(a, b) <==> ComesFirst(a, b)
  {
    if Less(a, b) {
      LessComesFirst(a, b);
    }
    if ComesFirst(a, b) {
      FirstIsLess(a, b);
    }
  }

  // ---------- the members of a group ----------

  ghost predicate DistinctIds(ps: seq<Proxy>) {
    forall i, j :: 0 <= i < j < |ps| ==> ps[i].id != ps[j].id
  }

  predicate MemberOf(p: Proxy, group: string) {
    p.enabled && GroupKey(p) == Lower(TrimSpace(group))
  }

  /** The same text, but for the case of ASCII letters. */
  predicate SameButCase(a: string, b: string) {
    |a| == |b| && forall i :: 0 <= i < |a| ==> SameLetter(a[i], b[i])
  }

  predicate SameLetter(c: char, d: char) {
    || c == d
    || ('A' <= c <= 'Z' && d as int == c as int + 32)
    || ('A' <= d <= 'Z' && c as int == d as int + 32)
  }

  lemma LowerLetter(c: char, d: char)
    ensures LowerChar(c) == LowerChar(d) <==> SameLetter(c, d)
  {
    assert forall x: char :: 'A' <= x <= 'Z' ==> LowerChar(x) as int == x as int + 32;
  }

  lemma LowerMeaning(a: string, b: string)
    ensures Lower(a) == Lower(b) <==> SameButCase(a, b)
  {
    forall i | 0 <= i < |a| && i < |b| ensures Lower(a)[i] == Lower(b)[i] <==> SameLetter(a[i], b[i]) {
      LowerLetter(a[i], b[i]);
    }
    if SameButCase(a, b) {
      assert forall i :: 0 <= i < |a| ==> Lower(a)[i] == Lower(b)[i];
    } else if |a| == |b| {
      var i :| 0 <= i < |a| && !SameLetter(a[i], b[i]);
      assert Lower(a)[i] != Lower(b)[i];
    }
  }

  /** Membership in a group does not depend on case and on white space around the name. */
  lemma MemberMeaning(p: Proxy, group: string)
    ensures MemberOf(p, group) <==> p.enabled && SameButCase(TrimSpace(p.group), TrimSpace(group))
  {
    LowerMeaning(TrimSpace(p.group), TrimSpace(group));
  }

  function Members(ps: seq<Proxy>, group: string): seq<Proxy> {
    if ps == [] then []
    else Members(ps[..|ps| - 1], group) + (if MemberOf(ps[|ps| - 1], group) then [ps[|ps| - 1]] else [])
  }

  /** Ranked by health; the order of members that compare equal is left open, as sort.Slice leaves it. */
  ghost predicate Ranked(ps: seq<Proxy>) {
    forall i, j :: 0 <= i < j < |ps| ==> !Healthier(ps[j], ps[i])
  }

  ghost predicate Ranking(ps: seq<Proxy>, r: seq<Proxy>) {
    Ranked(r) && multiset(r) == multiset(ps)
  }

  function Insert(ps: seq<Proxy>, p: Proxy): seq<Proxy> {
    if ps == [] || !Healthier(p, ps[|ps| - 1]) then ps + [p]
    else Insert(ps[..|ps| - 1], p) + [ps[|ps| - 1]]
  }

  lemma {:induction false} InsertMembers(ps: seq<Proxy>, p: Proxy)
    ensures multiset(Insert(ps, p)) == multiset(ps) + multiset{p}
  {
    if ps != [] && Healthier(p, ps[|ps| - 1]) {
      InsertMembers(ps[..|ps| - 1], p);
      assert ps == ps[..|ps| - 1] + [ps[|ps| - 1]];
    }
  }

  lemma {:induction false} InsertRanks(ps: seq<Proxy>, p: Proxy)
    requires Ranked(ps)
    ensures Ranked(Insert(ps, p))
  {
    var n := |ps| - 1;
    if ps != [] && Healthier(p, ps[n]) {
      var r := Insert(ps[..n], p);
      InsertRanks(ps[..n], p);
      InsertMembers(ps[..n], p);
      HealthierIsAnOrder(p, ps[n], p);
      forall i | 0 <= i < |r| ensures !Healthier(ps[n], r[i]) {
        assert r[i] in multiset(r);
        assert r[i] in ps[..n] || r[i] == p;
      }
    } else if ps != [] {
      forall i | 0 <= i < |ps| ensures !Healthier(p, ps[i]) {
        HealthierIsAnOrder(ps[i], ps[n], p);
      }
    }
  }

  /** The enabled members of a group, ranked; of members that compare equal the first stored comes first. */
  function RankedMembers(ps: seq<Proxy>, group: string): seq<Proxy> {
    if ps == [] then []
    else
      var before, last := RankedMembers(ps[..|ps| - 1], group), ps[|ps| - 1];
      if MemberOf(last, group) then Insert(before, last) else before
  }

  lemma {:induction false} RankedMembersRank(ps: seq<Proxy>, group: string)
    ensures Ranking(Members(ps, group), RankedMembers(ps, group))
  {
    if ps != [] {
      var n := |ps| - 1;
      RankedMembersRank(ps[..n], group);
      InsertMembers(RankedMembers(ps[..n], group), ps[n]);
      InsertRanks(RankedMembers(ps[..n], group), ps[n]);
    }
  }

  /** Whatever order a ranking gives to ties, its members are those of the group. */
  lemma {:induction false} MembersMeaning(ps: seq<Proxy>, group: string)
    ensures forall p :: p in Members(ps, group) <==> p in ps && MemberOf(p, group)
  {
    if ps != [] {
      MembersMeaning(ps[..|ps| - 1], group);
      assert ps == ps[..|ps| - 1] + [ps[|ps| - 1]];
    }
  }

  lemma {:induction false} RankedMembersMeaning(ps: seq<Proxy>, group: string)
    requires DistinctIds(ps)
    ensures DistinctIds(RankedMembers(ps, group))
    ensures forall p :: p in RankedMembers(ps, group) <==> p in ps && MemberOf(p, group)
  {
    if ps != [] {
      var n := |ps| - 1;
      var before := RankedMembers(ps[..n], group);
      RankedMembersMeaning(ps[..n], group);
      assert ps == ps[..n] + [ps[n]];
      if MemberOf(ps[n], group) {
        forall i | 0 <= i < |before| ensures before[i].id != ps[n].id {
          assert before[i] in before;
          var j :| 0 <= j < n && ps[..n][j] == before[i];
        }
        InsertDistinct(before, ps[n]);
      }
    }
  }

  lemma {:induction false} InsertDistinct(ps: seq<Proxy>, p: Proxy)
    requires DistinctIds(ps) && forall i :: 0 <= i < |ps| ==> ps[i].id != p.id
    ensures DistinctIds(Insert(ps, p))
    ensures forall q :: q in Insert(ps, p) <==> q in ps || q == p
  {
    if ps != [] && Healthier(p, ps[|ps| - 1]) {
      var n := |ps| - 1;
      InsertDistinct(ps[..n], p);
      assert ps == ps[..n] + [ps[n]];
      var r := Insert(ps[..n], p);
      forall i | 0 <= i < |r| ensures r[i].id != ps[n].id {
        assert r[i] in r;
        assert r[i] != p ==> exists j :: 0 <= j < n && ps[..n][j] == r[i];
      }
    }
  }

  /** sortedProxyGroupMembers */
  method SortedMembers(ps: seq<Proxy>, group: string) returns (members: seq<Proxy>)
    ensures members == RankedMembers(ps, group) && Ranking(Members(ps, group), members)
  {
    members := [];
    for i := 0 to |ps|
      invariant members == RankedMembers(ps[..i], group)
    {
      assert ps[..i + 1][..i] == ps[..i];
      if MemberOf(ps[i], group) {
        members := Insert(members, ps[i]);
      }
    }
    assert ps[..|ps|] == ps;
    RankedMembersRank(ps, group);
  }

  // ---------- the assignment ----------

  /** proxyPreferenceWeight */
  function Weight(p: Proxy): nat {
    if !p.enabled then 0
    else if p.lastTest.None? || !p.lastTest.value.success then 1
    else if 0 < p.lastTest.value.responseTime <= 100 then 4
    else if 0 < p.lastTest.value.responseTime <= 300 then 3
    else 2
  }

  /** What the weight says of the last test: fast, not so fast, slow, none that succeeded, or disabled. */
  lemma WeightMeaning(p: Proxy)
    ensures Weight(p) == 4 <==> Working(p) && 0 < p.lastTest.value.responseTime <= 100
    ensures Weight(p) == 3 <==> Working(p) && 100 < p.lastTest.value.responseTime <= 300
    ensures Weight(p) == 2 <==> Working(p) && !(0 < p.lastTest.value.responseTime <= 300)
    ensures Weight(p) == 1 <==> Failing(p) || Untried(p)
    ensures Weight(p) == 0 <==> !p.enabled
  {
  }

  function Repeat(id: nat, n: nat): (r: seq<nat>)
    ensures |r| == n
  {
    seq(n, i => id)
  }

  /** Every proxy as often as its weight says. */
  function Weighted(ps: seq<Proxy>): seq<nat> {
    if ps == [] then [] else Weighted(ps[..|ps| - 1]) + Repeat(ps[|ps| - 1].id, Weight(ps[|ps| - 1]))
  }

  /** healthPreferredAssignProxyIDs: the keys take the weighted list in turn. */
  function Assigned(keys: seq<int>, weighted: seq<nat>): map<int, nat> {
    if keys == [] || weighted == [] then map[]
    else Assigned(keys[..|keys| - 1], weighted)[keys[|keys| - 1] := weighted[(|keys| - 1) % |weighted|]]
  }

  method Assign(keys: seq<int>, ps: seq<Proxy>) returns (assignment: map<int, nat>)
    ensures assignment == Assigned(keys, Weighted(ps))
  {
    assignment := map[];
    var weighted: seq<nat> := [];
    for i := 0 to |ps|
      invariant weighted == Weighted(ps[..i])
    {
      var weight := Weight(ps[i]);
      ghost var before := weighted;
      for n := 0 to weight
        invariant weighted == before + Repeat(ps[i].id, n)
      {
        assert Repeat(ps[i].id, n + 1) == Repeat(ps[i].id, n) + [ps[i].id];
        weighted := weighted + [ps[i].id];
      }
      assert ps[..i + 1][..i] == ps[..i];
    }
    assert ps[..|ps|] == ps;
    if |weighted| == 0 {
      return;
    }
    for i := 0 to |keys|
      invariant assignment == Assigned(keys[..i], weighted)
    {
      assert keys[..i + 1][..i] == keys[..i];
      assignment := assignment[keys[i] := weighted[i % |weighted|]];
    }
    assert keys[..|keys|] == keys;
  }

  // ---------- how many keys each proxy gets ----------

  /** How often a proxy stands in a list. */
  function Count(ids: seq<nat>, id: nat): nat {
    if ids == [] then 0 else Count(ids[..|ids| - 1], id) + (if ids[|ids| - 1] == id then 1 else 0)
  }

  /** The proxies that the keys get, key by key. */
  function Shares(assignment: map<int, nat>, keys: seq<int>): seq<nat>
    requires forall i :: 0 <= i < |keys| ==> keys[i] in assignment
  {
    seq(|keys|, i requires 0 <= i < |keys| => assignment[keys[i]])
  }

  /** The list taken over and over, up to length k. */
  function Cycle(ids: seq<nat>, k: nat): (r: seq<nat>)
    requires ids != []
    ensures |r| == k
  {
    seq(k, i => ids[i % |ids|])
  }

  lemma {:induction false} CountAppend(a: seq<nat>, b: seq<nat>, id: nat)
    ensures Count(a + b, id) == Count(a, id) + Count(b, id)
  {
    if b == [] {
      assert a + b == a;
    } else {
      assert (a + b)[..|a + b| - 1] == a + b[..|b| - 1];
      CountAppend(a, b[..|b| - 1], id);
    }
  }

  lemma {:induction false} CountBounds(ids: seq<nat>, id: nat, n: nat)
    requires n <= |ids|
    ensures Count(ids[..n], id) <= n && Count(ids[..n], id) <= Count(ids, id)
  {
    if n > 0 {
      CountBounds(ids, id, n - 1);
      assert ids[..n][..n - 1] == ids[..n - 1];
    }
    CountAppend(ids[..n], ids[n..], id);
    assert ids == ids[..n] + ids[n..];
  }

  lemma CycleAt(ids: seq<nat>, i: nat)
    requires ids != []
    ensures i < |ids| ==> ids[i % |ids|] == ids[i]
    ensures i >= |ids| ==> ids[i % |ids|] == ids[(i - |ids|) % |ids|]
  {
    if i < |ids| {
      QuotientUnique(i, |ids|, 0, i);
    } else {
      ModulusOnce(i, |ids|);
    }
  }

  lemma CycleOnce(ids: seq<nat>, k: nat)
    requires ids != [] && k >= |ids|
    ensures Cycle(ids, k) == ids + Cycle(ids, k - |ids|)
  {
    var twice := ids + Cycle(ids, k - |ids|);
    forall i | 0 <= i < k ensures Cycle(ids, k)[i] == twice[i] {
      CycleAt(ids, i);
    }
  }

  lemma AtLeastOnce(d: int, w: nat)
    requires d >= 1
    ensures d * w >= w
  {
  }

  lemma QuotientUnique(i: nat, w: nat, q: nat, r: nat)
    requires w > 0 && i == q * w + r && r < w
    ensures i / w == q && i % w == r
  {
    var p := i / w;
    assert i == p * w + i % w;
    assert (p - q) * w == p * w - q * w && (q - p) * w == q * w - p * w;
    if p > q {
      AtLeastOnce(p - q, w);
    } else if q > p {
      AtLeastOnce(q - p, w);
    }
  }

  lemma ModulusOnce(i: nat, w: nat)
    requires i >= w > 0
    ensures i % w == (i - w) % w && i / w == (i - w) / w + 1
  {
    var q, r := (i - w) / w, (i - w) % w;
    assert i - w == q * w + r;
    QuotientUnique(i, w, q + 1, r);
  }

  lemma CyclePart(ids: seq<nat>, k: nat)
    requires ids != [] && k < |ids|
    ensures Cycle(ids, k) == ids[..k] && k / |ids| == 0 && k % |ids| == k
  {
    QuotientUnique(k, |ids|, 0, k);
    forall i | 0 <= i < k ensures Cycle(ids, k)[i] == ids[..k][i] {
      CycleAt(ids, i);
    }
  }

  /** In k turns a member of weight w gets w for every full round, and the rest from the last one. */
  lemma {:induction false} CycleCount(ids: seq<nat>, k: nat, id: nat)
    requires ids != []
    ensures Count(Cycle(ids, k), id) == Rounds(k, |ids|, Count(ids, id)) + Count(ids[..k % |ids|], id)
    decreases k
  {
    if k < |ids| {
      CyclePart(ids, k);
    } else {
      CycleOnce(ids, k);
      CountAppend(ids, Cycle(ids, k - |ids|), id);
      CycleCount(ids, k - |ids|, id);
      OneMoreRound(k, |ids|, Count(ids, id));
    }
  }

  /** c for each full round of w in k turns. */
  function Rounds(k: nat, w: nat, c: nat): nat
    requires w > 0
  {
    (k / w) * c
  }

  lemma OneMoreRound(k: nat, w: nat, c: nat)
    requires k >= w > 0
    ensures Rounds(k, w, c) == Rounds(k - w, w, c) + c && k % w == (k - w) % w
  {
    ModulusOnce(k, w);
  }

  lemma {:induction false} CountRepeat(id: nat, n: nat, other: nat)
    ensures Count(Repeat(id, n), other) == if other == id then n else 0
  {
    if n > 0 {
      CountRepeat(id, n - 1, other);
      assert Repeat(id, n)[..n - 1] == Repeat(id, n - 1);
    }
  }

  /** A proxy stands in the weighted list as often as its weight says; others do not stand in it. */
  lemma {:induction false} WeightedCount(ps: seq<Proxy>, id: nat)
    requires DistinctIds(ps)
    ensures (forall i :: 0 <= i < |ps| ==> ps[i].id != id) ==> Count(Weighted(ps), id) == 0
    ensures forall i :: 0 <= i < |ps| && ps[i].id == id ==> Count(Weighted(ps), id) == Weight(ps[i])
  {
    if ps != [] {
      var n := |ps| - 1;
      WeightedCount(ps[..n], id);
      CountAppend(Weighted(ps[..n]), Repeat(ps[n].id, Weight(ps[n])), id);
      CountRepeat(ps[n].id, Weight(ps[n]), id);
      assert forall i :: 0 <= i < n ==> ps[..n][i] == ps[i];
    }
  }

  function TotalWeight(ps: seq<Proxy>): nat {
    if ps == [] then 0 else TotalWeight(ps[..|ps| - 1]) + Weight(ps[|ps| - 1])
  }

  lemma {:induction false} WeightedLength(ps: seq<Proxy>)
    ensures |Weighted(ps)| == TotalWeight(ps)
  {
    if ps != [] {
      WeightedLength(ps[..|ps| - 1]);
    }
  }

  lemma {:induction false} AssignedMeaning(keys: seq<int>, weighted: seq<nat>)
    requires weighted != [] && forall i, j :: 0 <= i < j < |keys| ==> keys[i] != keys[j]
    ensures forall k :: k in Assigned(keys, weighted) <==> k in keys
    ensures forall i :: 0 <= i < |keys| ==>
              keys[i] in Assigned(keys, weighted) && Assigned(keys, weighted)[keys[i]] == weighted[i % |weighted|]
  {
    if keys != [] {
      var n := |keys| - 1;
      AssignedMeaning(keys[..n], weighted);
      assert forall i :: 0 <= i < n ==> keys[..n][i] == keys[i];
    }
  }

  lemma {:induction false} EnabledWeighTotal(ps: seq<Proxy>)
    requires ps != [] && ps[|ps| - 1].enabled
    ensures TotalWeight(ps) > 0
  {
  }

  /** The share of a member: its weight for every full round, and at most its weight of the rest. */
  predicate FairShare(c: nat, k: nat, total: nat, w: nat) {
    total > 0 && (k / total) * w <= c <= (k / total) * w + (if w < k % total then w else k % total)
  }

  /**
   Binding k distinct keys to the enabled members of a group with total weight W: every key gets a
   member, and a member of weight w gets at least (k div W)*w and at most (k div W)*w + min(w, k mod W) keys.
   */
  lemma WeightedBinding(keys: seq<int>, members: seq<Proxy>, m: nat)
    requires forall i, j :: 0 <= i < j < |keys| ==> keys[i] != keys[j]
    requires DistinctIds(members) && m < |members| && forall i :: 0 <= i < |members| ==> members[i].enabled
    ensures var assignment := Assigned(keys, Weighted(members));
      && (forall i :: 0 <= i < |keys| ==> keys[i] in assignment)
      && FairShare(Count(Shares(assignment, keys), members[m].id), |keys|, TotalWeight(members), Weight(members[m]))
  {
    var weighted := Weighted(members);
    WeightedLength(members);
    EnabledWeighTotal(members);
    AssignedMeaning(keys, weighted);
    var shares := Shares(Assigned(keys, weighted), keys);
    assert shares == Cycle(weighted, |keys|);
    CycleCount(weighted, |keys|, members[m].id);
    WeightedCount(members, members[m].id);
    CountBounds(weighted, members[m].id, |keys| % |weighted|);
  }

  /** Every key gets the id of a member. */
  lemma {:induction false} WeightedAreMembers(ps: seq<Proxy>, i: nat)
    requires i < |Weighted(ps)|
    ensures HasId(ps, Weighted(ps)[i])
  {
    var n := |ps| - 1;
    if i < |Weighted(ps[..n])| {
      WeightedAreMembers(ps[..n], i);
      var j :| 0 <= j < n && ps[..n][j].id == Weighted(ps[..n])[i];
      assert ps[j].id == Weighted(ps)[i];
    } else {
      assert ps[n].id == Weighted(ps)[i];
    }
  }

  function CountAll(ids: seq<nat>, ps: seq<Proxy>): nat {
    if ps == [] then 0 else CountAll(ids, ps[..|ps| - 1]) + Count(ids, ps[|ps| - 1].id)
  }

  lemma {:induction false} CountOne(ps: seq<Proxy>, id: nat)
    requires DistinctIds(ps)
    ensures CountAll([id], ps) == if HasId(ps, id) then 1 else 0
  {
    if ps != [] {
      var n := |ps| - 1;
      var before := ps[..n];
      CountOne(before, id);
      CountSingle(id, ps[n].id);
      forall j | 0 <= j < n ensures before[j].id != ps[n].id {
        assert before[j] == ps[j];
      }
    }
  }

  lemma CountSingle(id: nat, other: nat)
    ensures Count([id], other) == if other == id then 1 else 0
  {
    assert [id][..0] == [] && [id][0] == id;
    assert Count([], other) == 0;
  }

  predicate AllHaveId(ps: seq<Proxy>, ids: seq<nat>) {
    forall i :: 0 <= i < |ids| ==> HasId(ps, ids[i])
  }

  lemma {:induction false} CountAllAppend(a: seq<nat>, b: seq<nat>, ps: seq<Proxy>)
    ensures CountAll(a + b, ps) == CountAll(a, ps) + CountAll(b, ps)
  {
    if ps != [] {
      CountAllAppend(a, b, ps[..|ps| - 1]);
      CountAppend(a, b, ps[|ps| - 1].id);
    }
  }

  /** The shares of all members add up to the number of keys. */
  lemma {:induction false} SharesAddUp(ids: seq<nat>, ps: seq<Proxy>)
    requires DistinctIds(ps)
    requires AllHaveId(ps, ids)
    ensures CountAll(ids, ps) == |ids|
  {
    if ids == [] {
      CountNone(ps);
    } else {
      var n := |ids| - 1;
      SharesAddUp(ids[..n], ps);
      CountAllAppend(ids[..n], [ids[n]], ps);
      CountOne(ps, ids[n]);
      assert ids == ids[..n] + [ids[n]];
    }
  }

  lemma {:induction false} CountNone(ps: seq<Proxy>)
    ensures CountAll([], ps) == 0
  {
    if ps != [] {
      CountNone(ps[..|ps| - 1]);
    }
  }

  lemma BindingConserves(keys: seq<int>, members: seq<Proxy>)
    requires forall i, j :: 0 <= i < j < |keys| ==> keys[i] != keys[j]
    requires DistinctIds(members) && members != [] && forall i :: 0 <= i < |members| ==> members[i].enabled
    ensures var assignment := Assigned(keys, Weighted(members));
      && (forall i :: 0 <= i < |keys| ==> keys[i] in assignment && HasId(members, assignment[keys[i]]))
      && CountAll(Shares(assignment, keys), members) == |keys|
  {
    var weighted := Weighted(members);
    WeightedLength(members);
    EnabledWeighTotal(members);
    AssignedMeaning(keys, weighted);
    forall i | 0 <= i < |keys| ensures HasId(members, weighted[i % |weighted|]) {
      WeightedAreMembers(members, i % |weighted|);
    }
    SharesAddUp(Shares(Assigned(keys, weighted), keys), members);
  }

  // ---------- any order of ties ----------

  lemma {:induction false} MembersDistinct(ps: seq<Proxy>, group: string)
    requires DistinctIds(ps)
    ensures DistinctIds(Members(ps, group))
  {
    if ps != [] {
      var n := |ps| - 1;
      var before := Members(ps[..n], group);
      MembersDistinct(ps[..n], group);
      MembersMeaning(ps[..n], group);
      forall i | 0 <= i < |before| ensures before[i].id != ps[n].id {
        assert before[i] in before;
        var j :| 0 <= j < n && ps[..n][j] == before[i];
      }
    }
  }

  lemma {:induction false} OnceEach(ps: seq<Proxy>, p: Proxy)
    requires DistinctIds(ps)
    ensures multiset(ps)[p] <= 1
  {
    if ps != [] {
      var n := |ps| - 1;
      OnceEach(ps[..n], p);
      assert ps == ps[..n] + [ps[n]];
      if p == ps[n] {
        assert p !in ps[..n];
      }
    }
  }

  lemma TwiceInOne(r: seq<Proxy>, i: nat, j: nat)
    requires i < j < |r| && r[i] == r[j]
    ensures multiset(r)[r[i]] >= 2
  {
    assert r == r[..j] + [r[j]] + r[j + 1..];
    assert r[i] == r[..j][i] && r[..j][i] in r[..j];
  }

  /** A rearrangement of proxies with different ids has the same proxies, each once. */
  lemma RearrangedDistinct(ps: seq<Proxy>, r: seq<Proxy>)
    requires DistinctIds(ps) && multiset(r) == multiset(ps)
    ensures DistinctIds(r) && forall p :: p in r <==> p in ps
  {
    forall p ensures p in r <==> p in ps {
      assert p in r <==> p in multiset(r);
      assert p in ps <==> p in multiset(ps);
    }
    forall i, j | 0 <= i < j < |r| ensures r[i].id != r[j].id {
      OnceEach(ps, r[i]);
      if r[i] == r[j] {
        TwiceInOne(r, i, j);
      }
      assert r[i] in r && r[j] in r;
    }
  }

  /**
   However a ranking of a group orders members that compare equal: every key gets an enabled member
   of the group, each member gets its fair share, and the shares add up.
   */
  lemma AnyRankingIsFair(ps: seq<Proxy>, group: string, r: seq<Proxy>, keys: seq<int>, m: nat)
    requires DistinctIds(ps) && Ranking(Members(ps, group), r) && m < |r|
    requires forall i, j :: 0 <= i < j < |keys| ==> keys[i] != keys[j]
    ensures forall p :: p in r <==> p in ps && MemberOf(p, group)
    ensures var assignment := Assigned(keys, Weighted(r));
      && (forall i :: 0 <= i < |keys| ==> keys[i] in assignment && HasId(r, assignment[keys[i]]))
      && FairShare(Count(Shares(assignment, keys), r[m].id), |keys|, TotalWeight(Members(ps, group)), Weight(r[m]))
      && CountAll(Shares(assignment, keys), r) == |keys|
  {
    MembersMeaning(ps, group);
    MembersDistinct(ps, group);
    RearrangedDistinct(Members(ps, group), r);
    forall i | 0 <= i < |r| ensures r[i].enabled {
      assert r[i] in r;
    }
    WeightedBinding(keys, r, m);
    BindingConserves(keys, r);
    TotalWeightOfAny(Members(ps, group), r);
  }

  lemma TakenOut(r: seq<Proxy>, i: nat)
    requires i < |r|
    ensures multiset(r[..i] + r[i + 1..]) == multiset(r) - multiset{r[i]}
  {
    assert r == r[..i] + [r[i]] + r[i + 1..];
  }

  /** Where the last proxy stands in a rearrangement, and that the others rearrange the others. */
  lemma LastOneIn(ps: seq<Proxy>, r: seq<Proxy>) returns (i: nat)
    requires ps != [] && multiset(r) == multiset(ps)
    ensures i < |r| && r[i] == ps[|ps| - 1]
    ensures multiset(r[..i] + r[i + 1..]) == multiset(ps[..|ps| - 1])
  {
    var n := |ps| - 1;
    assert ps[n] in multiset(ps);
    assert ps[n] in r;
    i :| 0 <= i < |r| && r[i] == ps[n];
    TakenOut(ps, n);
    TakenOut(r, i);
    assert ps[..n] + ps[n + 1..] == ps[..n];
  }

  /** No ranking makes a difference to the total weight. */
  lemma {:induction false} TotalWeightOfAny(ps: seq<Proxy>, r: seq<Proxy>)
    requires multiset(r) == multiset(ps)
    ensures TotalWeight(r) == TotalWeight(ps)
    decreases |ps|
  {
    if ps == [] {
      assert |multiset(r)| == 0;
    } else {
      var n := |ps| - 1;
      var i := LastOneIn(ps, r);
      TotalWeightOfAny(ps[..n], r[..i] + r[i + 1..]);
      TotalWithout(r, i);
    }
  }

  lemma {:induction false} TotalWithout(r: seq<Proxy>, i: nat)
    requires i < |r|
    ensures TotalWeight(r) == TotalWeight(r[..i] + r[i + 1..]) + Weight(r[i])
  {
    var n := |r| - 1;
    if i == n {
      assert r[..i] + r[i + 1..] == r[..n];
    } else {
      TotalWithout(r[..n], i);
      assert (r[..i] + r[i + 1..])[..n - 1] == r[..n][..i] + r[..n][i + 1..];
    }
  }
}
