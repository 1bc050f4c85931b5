/**
 The table of runtime redirects between proxies.  A proxy that has failed is redirected to a
 replacement, and every redirect that led to it is moved on, so that a lookup is one step.
 */
module ProxyFailover {
  import opened Text
  import opened StoreData

  /** What the runtime knows of a proxy; URLs are trimmed. */
  datatype Info = Info(id: nat, url: string, managedBy: string)

  datatype Table = Table(byProxy: map<nat, Info>, failoverByID: map<nat, Info>, failoverByURL: map<string, Info>,
                         cooling: map<nat, int>)

  const COOLING_TIME := 600

  /** lookupProxyRuntimeInfo */
  function Lookup(t: Table, id: nat): Option<Info> {
    if id == 0 then None
    else if id in t.failoverByID && t.failoverByID[id].url != "" then Some(t.failoverByID[id])
    else if id in t.byProxy then Some(t.byProxy[id])
    else None
  }

  /** The replacement itself may have been redirected already. */
  function Resolved(t: Table, replacement: Info): Info {
    if Lookup(t, replacement.id).Some? && Lookup(t, replacement.id).value.url != ""
    then Lookup(t, replacement.id).value else replacement
  }

  /** A redirect that leads to the origin, by its id or by its URL. */
  predicate LeadsTo(info: Info, origin: Info) {
    info.id == origin.id || (origin.url != "" && info.url == origin.url)
  }

  function Moved<K>(m: map<K, Info>, origin: Info, r: Info): map<K, Info> {
    map k | k in m :: if LeadsTo(m[k], origin) then r else m[k]
  }

  /** setProxyRuntimeFailover */
  function Redirected(t: Table, origin: Info, replacement: Info, now: int): Table {
    if origin.id == 0 && origin.url == "" then t
    else
      var r := Resolved(t, replacement);
      var byID := if origin.id > 0 then t.failoverByID[origin.id := r] else t.failoverByID;
      var byURL := if origin.url != "" then t.failoverByURL[origin.url := r] else t.failoverByURL;
      t.(failoverByID := Moved(byID, origin, r), failoverByURL := Moved(byURL, origin, r),
         cooling := if origin.id > 0 then t.cooling[origin.id := now + COOLING_TIME] else t.cooling)
  }

  // ---------- redirects stay flat ----------

  /** One URL per id: every proxy that is known by an id has the URL of that id, and has one. */
  ghost predicate Proper(info: Info, urls: nat -> string) {
    info.url != "" && (info.id > 0 ==> info.url == urls(info.id))
  }

  ghost predicate ProperTable(t: Table, urls: nat -> string) {
    && (forall id :: id in t.byProxy ==> t.byProxy[id].id == id && id > 0 && Proper(t.byProxy[id], urls))
    && (forall id :: id in t.failoverByID ==> id > 0 && t.failoverByID[id].id > 0 && Proper(t.failoverByID[id], urls))
    && forall url :: url in t.failoverByURL ==> t.failoverByURL[url].id > 0 && Proper(t.failoverByURL[url], urls)
  }

  /** The proxy is not redirected to a different one. */
  predicate Settled(t: Table, id: nat) {
    id in t.failoverByID ==> t.failoverByID[id].id == id
  }

  /** No redirect leads to a proxy that is itself redirected elsewhere. */
  ghost predicate Flat(t: Table) {
    && (forall id :: id in t.failoverByID ==> Settled(t, t.failoverByID[id].id))
    && forall url :: url in t.failoverByURL ==> Settled(t, t.failoverByURL[url].id)
  }

  lemma ResolvedIsSettled(t: Table, replacement: Info, urls: nat -> string)
    requires ProperTable(t, urls) && Flat(t) && Proper(replacement, urls) && replacement.id > 0
    ensures var r := Resolved(t, replacement); Settled(t, r.id) && r.id > 0 && Proper(r, urls)
  {
  }

  lemma ProperAfter(t: Table, origin: Info, replacement: Info, now: int, urls: nat -> string)
    requires ProperTable(t, urls) && Flat(t) && Proper(replacement, urls) && replacement.id > 0
    ensures ProperTable(Redirected(t, origin, replacement, now), urls)
  {
    ResolvedIsSettled(t, replacement, urls);
  }

  lemma FlatAfter(t: Table, origin: Info, replacement: Info, now: int, urls: nat -> string)
    requires ProperTable(t, urls) && Flat(t) && Proper(replacement, urls) && replacement.id > 0
    ensures Flat(Redirected(t, origin, replacement, now))
  {
    if origin.id > 0 || origin.url != "" {
      var u := Redirected(t, origin, replacement, now);
      ProperAfter(t, origin, replacement, now, urls);
      forall id | id in u.failoverByID ensures Settled(u, u.failoverByID[id].id) {
        TargetById(t, origin, replacement, now, id);
      }
      forall url | url in u.failoverByURL ensures Settled(u, u.failoverByURL[url].id) {
        TargetByUrl(t, origin, replacement, now, url);
      }
    }
  }

  /** Where a redirect leads afterwards: to the replacement, or where it led before. */
  lemma TargetById(t: Table, origin: Info, replacement: Info, now: int, id: nat)
    requires (origin.id > 0 || origin.url != "") && id in Redirected(t, origin, replacement, now).failoverByID
    ensures var x := Redirected(t, origin, replacement, now).failoverByID[id];
      x == Resolved(t, replacement) || (id in t.failoverByID && x == t.failoverByID[id] && !LeadsTo(x, origin))
  {
  }

  lemma TargetByUrl(t: Table, origin: Info, replacement: Info, now: int, url: string)
    requires (origin.id > 0 || origin.url != "") && url in Redirected(t, origin, replacement, now).failoverByURL
    ensures var x := Redirected(t, origin, replacement, now).failoverByURL[url];
      x == Resolved(t, replacement) || (url in t.failoverByURL && x == t.failoverByURL[url] && !LeadsTo(x, origin))
  {
  }

  datatype Failover = Failover(origin: Info, replacement: Info, now: int)

  function Run(t: Table, calls: seq<Failover>): Table {
    if calls == [] then t
    else
      var last := calls[|calls| - 1];
      Redirected(Run(t, calls[..|calls| - 1]), last.origin, last.replacement, last.now)
  }

  /**
   For a fixed proxy table with one URL per id, redirects are flat after any sequence of failovers:
   a redirect never leads to a proxy that is itself redirected to a different one.
   */
  lemma {:induction false} RedirectsStayFlat(byProxy: map<nat, Info>, calls: seq<Failover>, urls: nat -> string)
    requires ProperTable(Table(byProxy, map[], map[], map[]), urls)
    requires forall i :: 0 <= i < |calls| ==> Proper(calls[i].replacement, urls) && calls[i].replacement.id > 0
    ensures var t := Run(Table(byProxy, map[], map[], map[]), calls);
      ProperTable(t, urls) && Flat(t) && t.byProxy == byProxy
  {
    if calls != [] {
      var last := calls[|calls| - 1];
      RedirectsStayFlat(byProxy, calls[..|calls| - 1], urls);
      var t := Run(Table(byProxy, map[], map[], map[]), calls[..|calls| - 1]);
      ProperAfter(t, last.origin, last.replacement, last.now, urls);
      FlatAfter(t, last.origin, last.replacement, last.now, urls);
    }
  }

  /** One lookup is enough: looking up the proxy that a lookup found finds a proxy with the same id. */
  lemma LookupIsFinal(t: Table, urls: nat -> string, id: nat)
    requires ProperTable(t, urls) && Flat(t) && Lookup(t, id).Some?
    ensures var found := Lookup(t, id).value;
      Lookup(t, found.id).Some? ==>
          Lookup(t, found.id).value.id == found.id && Lookup(t, found.id).value.url == found.url
  {
  }

  /**
   After a failover some id still resolves to the origin exactly when the chosen replacement itself
   resolves back to the origin.
   */
  lemma OriginAbandoned(t: Table, origin: Info, replacement: Info, now: int, urls: nat -> string)
    requires ProperTable(t, urls) && origin.id > 0 && Proper(replacement, urls) && replacement.id > 0
    ensures var u := Redirected(t, origin, replacement, now);
      (exists id :: Lookup(u, id).Some? && Lookup(u, id).value.id == origin.id) <==>
          Resolved(t, replacement).id == origin.id
  {
    var u := Redirected(t, origin, replacement, now);
    assert Lookup(u, origin.id) == Some(Resolved(t, replacement));
    if Resolved(t, replacement).id != origin.id {
      forall id | Lookup(u, id).Some? ensures Lookup(u, id).value.id != origin.id {
      }
    }
  }

  /** A redirect that is moved on: it led to the origin, which is known by its id or by its URL. */
  predicate LedTo(info: Info, origin: Info) {
    info.id == origin.id || (origin.url != "" && info.url == origin.url)
  }

  /** The replacement, or what it resolves to itself. */
  ghost predicate StandsIn(t: Table, chosen: Info, r: Info) {
    if chosen.id > 0 && chosen.id in t.failoverByID then r == t.failoverByID[chosen.id]
    else if chosen.id > 0 && chosen.id in t.byProxy then r == t.byProxy[chosen.id]
    else r == chosen
  }

  /** By id, the origin and whoever was redirected to it resolve to `r` from now on; all others as before. */
  ghost predicate ResolvesById(t: Table, u: Table, origin: Info, r: Info) {
    forall id: nat :: Lookup(u, id) ==
      if id == origin.id || (id in t.failoverByID && LedTo(t.failoverByID[id], origin)) then Some(r) else Lookup(t, id)
  }

  /** And likewise by URL. */
  ghost predicate ResolvesByUrl(t: Table, u: Table, origin: Info, r: Info) {
    && (forall url :: url in u.failoverByURL <==> url in t.failoverByURL || (url == origin.url && origin.url != ""))
    && forall url :: url in u.failoverByURL ==>
         (if (url == origin.url && origin.url != "") || LedTo(t.failoverByURL[url], origin)
          then u.failoverByURL[url] == r
          else u.failoverByURL[url] == t.failoverByURL[url])
  }

  /** The origin cools for ten minutes, and all others as long as before. */
  ghost predicate CoolsDown(t: Table, u: Table, origin: Info, now: int) {
    forall id: nat, time :: IsCooling(u.cooling, id, time) <==>
                              if id == origin.id then time < now + 600 else IsCooling(t.cooling, id, time)
  }

  lemma RedirectedByUrl(t: Table, origin: Info, chosen: Info, now: int)
    requires origin.id > 0
    ensures ResolvesByUrl(t, Redirected(t, origin, chosen, now), origin, Resolved(t, chosen))
  {
  }

  lemma RedirectedById(t: Table, origin: Info, chosen: Info, now: int, urls: nat -> string)
    requires ProperTable(t, urls) && Proper(chosen, urls) && origin.id > 0
    ensures ResolvesById(t, Redirected(t, origin, chosen, now), origin, Resolved(t, chosen))
  {
    assert Resolved(t, chosen).url != "";
  }

  /**
   What a failover changes: the origin and every proxy that was redirected to it resolve to the
   stand-in from now on, by id and by URL, and the origin cools.  Nothing else changes.
   */
  lemma FailoverChanges(t: Table, origin: Info, chosen: Info, now: int, urls: nat -> string) returns (r: Info)
    requires ProperTable(t, urls) && Proper(chosen, urls) && origin.id > 0
    ensures StandsIn(t, chosen, r)
    ensures var u := Redirected(t, origin, chosen, now);
      && u.byProxy == t.byProxy && CoolsDown(t, u, origin, now)
      && ResolvesById(t, u, origin, r) && ResolvesByUrl(t, u, origin, r)
  {
    r := Resolved(t, chosen);
    RedirectedById(t, origin, chosen, now, urls);
    RedirectedByUrl(t, origin, chosen, now);
  }

  // ---------- choosing a replacement ----------

  datatype Candidate = Candidate(info: Info, successRank: int, latency: int, id: nat)

  /** Better results first, then lower latency, then lower id. */
  predicate Before(a: Candidate, b: Candidate) {
    if a.successRank != b.successRank then a.successRank > b.successRank
    else if a.latency != b.latency then a.latency < b.latency
    else a.id < b.id
  }

  const NO_LATENCY := 0x4000_0000_0000_0000

  function CandidateOf(p: Proxy, info: Info): Candidate {
    Candidate(info, if p.lastTest.None? then 1 else if p.lastTest.value.success then 3 else 0,
              if p.lastTest.Some? && p.lastTest.value.responseTime > 0 then p.lastTest.value.responseTime
              else NO_LATENCY, p.id)
  }

  predicate IsCooling(cooling: map<nat, int>, id: nat, now: int) {
    id in cooling && cooling[id] > now
  }

  /** The proxies that may replace the origin. */
  predicate Eligible(p: Proxy, index: map<nat, Info>, cooling: map<nat, int>, origin: Info, now: int) {
    && p.id != 0 && p.id != origin.id && ManagedByXray(p) && p.enabled && !IsCooling(cooling, p.id, now)
    && p.id in index && index[p.id].url != ""
  }

  function Candidates(ps: seq<Proxy>, index: map<nat, Info>, cooling: map<nat, int>, origin: Info,
                      now: int): seq<Candidate> {
    if ps == [] then []
    else
      var last := ps[|ps| - 1];
      Candidates(ps[..|ps| - 1], index, cooling, origin, now) +
      (if Eligible(last, index, cooling, origin, now) then [CandidateOf(last, index[last.id])] else [])
  }

  /** The first candidate after sorting. */
  function Best(cs: seq<Candidate>): Candidate
    requires cs != []
  {
    if |cs| == 1 then cs[0]
    else if Before(cs[|cs| - 1], Best(cs[..|cs| - 1])) then cs[|cs| - 1] else Best(cs[..|cs| - 1])
  }

  /** selectAlternativeManagedProxyFromStore */
  function Alternative(ps: seq<Proxy>, index: map<nat, Info>, cooling: map<nat, int>, origin: Info,
                       now: int): Option<Info> {
    if origin.managedBy != MANAGED_BY_XRAY then None
    else
      var cs := Candidates(ps, index, cooling, origin, now);
      if cs == [] then None else Some(Best(cs).info)
  }

  lemma {:induction false} BestIsFirst(cs: seq<Candidate>)
    requires cs != []
    ensures Best(cs) in cs && forall i :: 0 <= i < |cs| ==> !Before(cs[i], Best(cs))
  {
    if |cs| > 1 {
      var n := |cs| - 1;
      BestIsFirst(cs[..n]);
      assert forall i :: 0 <= i < n ==> cs[..n][i] == cs[i];
    }
  }

  lemma {:induction false} CandidatesMeaning(ps: seq<Proxy>, index: map<nat, Info>, cooling: map<nat, int>,
                                             origin: Info, now: int)
    ensures forall c :: c in Candidates(ps, index, cooling, origin, now) <==>
              exists i :: 0 <= i < |ps| && Eligible(ps[i], index, cooling, origin, now)
                          && c == CandidateOf(ps[i], index[ps[i].id])
  {
    if ps != [] {
      var before := ps[..|ps| - 1];
      CandidatesMeaning(before, index, cooling, origin, now);
      assert forall i :: 0 <= i < |before| ==> before[i] == ps[i];
    }
  }

  /**
   A replacement for a managed proxy is found exactly when some other managed proxy is enabled, not
   cooling, and reachable; and no eligible proxy has a better last test.
   */
  lemma SelectedIsBest(ps: seq<Proxy>, index: map<nat, Info>, cooling: map<nat, int>, origin: Info, now: int)
    requires origin.managedBy == MANAGED_BY_XRAY
    ensures Alternative(ps, index, cooling, origin, now).None? <==>
              forall i :: 0 <= i < |ps| ==> !Eligible(ps[i], index, cooling, origin, now)
    ensures Alternative(ps, index, cooling, origin, now).Some? ==>
              exists i :: 0 <= i < |ps| && Eligible(ps[i], index, cooling, origin, now)
                && Alternative(ps, index, cooling, origin, now).value == index[ps[i].id]
                && forall j :: 0 <= j < |ps| && Eligible(ps[j], index, cooling, origin, now) ==>
                     !Before(CandidateOf(ps[j], index[ps[j].id]), CandidateOf(ps[i], index[ps[i].id]))
  {
    var cs := Candidates(ps, index, cooling, origin, now);
    CandidatesMeaning(ps, index, cooling, origin, now);
    if cs == [] {
      forall i | 0 <= i < |ps| ensures !Eligible(ps[i], index, cooling, origin, now) {
        assert Eligible(ps[i], index, cooling, origin, now) ==> CandidateOf(ps[i], index[ps[i].id]) in cs;
      }
    } else {
      BestIsFirst(cs);
      var i :| 0 <= i < |ps| && Eligible(ps[i], index, cooling, origin, now)
          && Best(cs) == CandidateOf(ps[i], index[ps[i].id]);
      forall j | 0 <= j < |ps| && Eligible(ps[j], index, cooling, origin, now)
        ensures !Before(CandidateOf(ps[j], index[ps[j].id]), CandidateOf(ps[i], index[ps[i].id]))
      {
        assert CandidateOf(ps[j], index[ps[j].id]) in cs;
      }
    }
  }

  /** A managed proxy that could take over: another one, enabled, with a URL, and not cooling. */
  predicate CouldTakeOver(p: Proxy, index: map<nat, Info>, cooling: map<nat, int>, origin: Info, now: int) {
    && p.id != 0 && p.id != origin.id && p.managedBy == "xray" && p.enabled
    && p.id in index && index[p.id].url != "" && (p.id in cooling ==> cooling[p.id] <= now)
  }

  /** How long the last test took; without one, or without a time, as good as for ever. */
  function TestTime(p: Proxy): int {
    match p.lastTest
    case Some(test) => if test.responseTime > 0 then test.responseTime else 0x4000_0000_0000_0000
    case None => 0x4000_0000_0000_0000
  }

  /** A test that succeeded is better than none, and none is better than one that failed. */
  predicate BetterTested(p: Proxy, q: Proxy) {
    match p.lastTest
    case Some(test) => test.success && !(q.lastTest.Some? && q.lastTest.value.success)
    case None => q.lastTest.Some? && !q.lastTest.value.success
  }

  /** Better tested, or else faster, or else older. */
  predicate Preferred(p: Proxy, q: Proxy) {
    if BetterTested(p, q) then true
    else if BetterTested(q, p) then false
    else TestTime(p) < TestTime(q) || (TestTime(p) == TestTime(q) && p.id < q.id)
  }

  lemma NotBeforeIsPreferred(p: Proxy, q: Proxy, a: Info, b: Info)
    requires p.id != q.id && !Before(CandidateOf(q, b), CandidateOf(p, a))
    ensures Preferred(p, q)
  {
  }

  /** The replacement is the one proxy that is preferred to all others that could take over. */
  lemma ReplacementMeaning(ps: seq<Proxy>, index: map<nat, Info>, cooling: map<nat, int>, origin: Info, now: int)
    requires forall i, j :: 0 <= i < j < |ps| ==> ps[i].id != ps[j].id
    ensures match Alternative(ps, index, cooling, origin, now)
      case None =>
        origin.managedBy != "xray"
        || forall i :: 0 <= i < |ps| ==> !CouldTakeOver(ps[i], index, cooling, origin, now)
      case Some(chosen) =>
        origin.managedBy == "xray" && exists i :: IsPreferred(ps, index, cooling, origin, now, i, chosen)
  {
    if origin.managedBy == "xray" {
      assert forall i :: 0 <= i < |ps| ==> (CouldTakeOver(ps[i], index, cooling, origin, now) <==>
                                            Eligible(ps[i], index, cooling, origin, now));
      SelectedIsBest(ps, index, cooling, origin, now);
      var chosen := Alternative(ps, index, cooling, origin, now);
      if chosen.Some? {
        var i :| 0 <= i < |ps| && Eligible(ps[i], index, cooling, origin, now) && chosen.value == index[ps[i].id]
            && forall j :: 0 <= j < |ps| && Eligible(ps[j], index, cooling, origin, now) ==>
                 !Before(CandidateOf(ps[j], index[ps[j].id]), CandidateOf(ps[i], index[ps[i].id]));
        forall j | 0 <= j < |ps| && j != i && CouldTakeOver(ps[j], index, cooling, origin, now)
          ensures Preferred(ps[i], ps[j])
        {
          NotBeforeIsPreferred(ps[i], ps[j], index[ps[i].id], index[ps[j].id]);
        }
        assert IsPreferred(ps, index, cooling, origin, now, i, chosen.value);
      }
    }
  }

  ghost predicate IsPreferred(ps: seq<Proxy>, index: map<nat, Info>, cooling: map<nat, int>, origin: Info, now: int,
                              i: int, chosen: Info) {
    && 0 <= i < |ps| && CouldTakeOver(ps[i], index, cooling, origin, now) && chosen == index[ps[i].id]
    && forall j :: 0 <= j < |ps| && j != i && CouldTakeOver(ps[j], index, cooling, origin, now) ==>
                     Preferred(ps[i], ps[j])
  }

  /** promoteAlternativeManagedProxy: the table after the origin has failed. */
  function Promoted(t: Table, ps: seq<Proxy>, index: map<nat, Info>, origin: Info, now: int): Table {
    match Alternative(ps, index, t.cooling, origin, now)
    case None => t
    case Some(chosen) => Redirected(t, origin, chosen, now)
  }

  /** The only two managed proxies of a store, both enabled. */
  ghost predicate Pair(ps: seq<Proxy>, index: map<nat, Info>, a: Info, b: Info) {
    && a.id > 0 && b.id > 0 && a.id != b.id && a.url != "" && b.url != "" && a.url != b.url
    && a.managedBy == b.managedBy == MANAGED_BY_XRAY
    && |ps| == 2 && ps[0].id == a.id && ps[1].id == b.id
    && ManagedByXray(ps[0]) && ManagedByXray(ps[1]) && ps[0].enabled && ps[1].enabled
    && index == map[a.id := a, b.id := b]
  }

  /** Of a pair, the other one is chosen unless it is cooling. */
  lemma OtherIsChosen(ps: seq<Proxy>, index: map<nat, Info>, cooling: map<nat, int>, a: Info, b: Info, now: int)
    requires Pair(ps, index, a, b)
    ensures !IsCooling(cooling, b.id, now) ==> Alternative(ps, index, cooling, a, now) == Some(b)
    ensures !IsCooling(cooling, a.id, now) ==> Alternative(ps, index, cooling, b, now) == Some(a)
  {
    assert ps[..1][..0] == [];
    assert Candidates(ps[..1], index, cooling, a, now) == [];
    assert !IsCooling(cooling, a.id, now) ==>
        Candidates(ps[..1], index, cooling, b, now) == [CandidateOf(ps[0], a)];
  }

  /**
   One proxy fails, then the cooling runs out, and then the other one fails: it fails over to the
   first, which is still redirected to it, so that both resolve to the proxy that has just failed.
   */
  lemma FailoverInACircle(ps: seq<Proxy>, index: map<nat, Info>, a: Info, b: Info, now: int, later: int)
    requires Pair(ps, index, a, b) && later >= now + COOLING_TIME
    ensures var t := Promoted(Table(index, map[], map[], map[]), ps, index, b, now);
      var u := Promoted(t, ps, index, a, later);
      && Lookup(t, a.id) == Some(a) && Lookup(t, b.id) == Some(a)
      && Alternative(ps, index, t.cooling, a, later) == Some(b)
      && Lookup(u, a.id) == Some(a) && Lookup(u, b.id) == Some(a)
  {
    var s := Table(index, map[], map[], map[]);
    OtherIsChosen(ps, index, s.cooling, a, b, now);
    var t := Redirected(s, b, a, now);
    assert t.cooling == map[b.id := now + COOLING_TIME];
    OtherIsChosen(ps, index, t.cooling, a, b, later);
  }

  // ---------- the table in place ----------

  /** Tables that differ at most in cooling entries that have run out. */
  ghost predicate Alike(t: Table, u: Table, now: int) {
    && t.byProxy == u.byProxy && t.failoverByID == u.failoverByID && t.failoverByURL == u.failoverByURL
    && forall k :: IsCooling(t.cooling, k, now) == IsCooling(u.cooling, k, now)
  }

  lemma AlikeAfter(t: Table, u: Table, origin: Info, replacement: Info, now: int)
    requires Alike(t, u, now)
    ensures Alike(Redirected(t, origin, replacement, now), Redirected(u, origin, replacement, now), now)
  {
    assert Resolved(t, replacement) == Resolved(u, replacement);
    var t', u' := Redirected(t, origin, replacement, now), Redirected(u, origin, replacement, now);
    forall k ensures IsCooling(t'.cooling, k, now) == IsCooling(u'.cooling, k, now) {
      assert IsCooling(t.cooling, k, now) == IsCooling(u.cooling, k, now);
    }
  }

  class FailoverTable {
    var byProxy: map<nat, Info>
    var failoverByID: map<nat, Info>
    var failoverByURL: map<string, Info>
    var cooling: map<nat, int>

    function View(): Table
      reads this
    {
      Table(byProxy, failoverByID, failoverByURL, cooling)
    }

    constructor (byProxy: map<nat, Info>)
      ensures View() == Table(byProxy, map[], map[], map[])
    {
      this.byProxy, failoverByID, failoverByURL, cooling := byProxy, map[], map[], map[];
    }

    method MoveByID(origin: Info, replacement: Info)
      modifies this`failoverByID
      ensures failoverByID == Moved(old(failoverByID), origin, replacement)
    {
      ghost var before := failoverByID;
      var ids := failoverByID.Keys;
      while ids != {}
        invariant ids <= before.Keys == failoverByID.Keys
        invariant forall id :: id in before ==>
                    failoverByID[id] == if id !in ids && LeadsTo(before[id], origin) then replacement else before[id]
        decreases |ids|
      {
        var id :| id in ids;
        if LeadsTo(failoverByID[id], origin) {
          failoverByID := failoverByID[id := replacement];
        }
        ids := ids - {id};
      }
    }

    method MoveByURL(origin: Info, replacement: Info)
      modifies this`failoverByURL
      ensures failoverByURL == Moved(old(failoverByURL), origin, replacement)
    {
      ghost var before := failoverByURL;
      var urls := failoverByURL.Keys;
      while urls != {}
        invariant urls <= before.Keys == failoverByURL.Keys
        invariant forall url :: url in before ==>
                    failoverByURL[url] == if url !in urls && LeadsTo(before[url], origin) then replacement
                    else before[url]
        decreases |urls|
      {
        var url :| url in urls;
        if LeadsTo(failoverByURL[url], origin) {
          failoverByURL := failoverByURL[url := replacement];
        }
        urls := urls - {url};
      }
    }

    /** setProxyRuntimeFailover */
    method SetFailover(origin: Info, chosen: Info, now: int)
      modifies this
      ensures View() == Redirected(old(View()), origin, chosen, now)
    {
      if origin.id == 0 && origin.url == "" {
        return;
      }
      var replacement := chosen;
      var resolved := Lookup(View(), chosen.id);
      if resolved.Some? && resolved.value.url != "" {
        replacement := resolved.value;
      }
      if origin.id > 0 {
        failoverByID := failoverByID[origin.id := replacement];
        cooling := cooling[origin.id := now + COOLING_TIME];
      }
      if origin.url != "" {
        failoverByURL := failoverByURL[origin.url := replacement];
      }
      MoveByID(origin, replacement);
      MoveByURL(origin, replacement);
    }

    /** isProxyRuntimeCooling: an entry that has expired is dropped. */
    method CheckCooling(id: nat, now: int) returns (isCooling: bool)
      modifies this`cooling
      ensures isCooling == (id != 0 && IsCooling(old(cooling), id, now))
      ensures forall k :: IsCooling(cooling, k, now) == IsCooling(old(cooling), k, now)
    {
      if id == 0 || id !in cooling {
        return false;
      }
      if cooling[id] <= now {
        cooling := cooling - {id};
        return false;
      }
      return true;
    }

    /** selectAlternativeManagedProxyFromStore */
    method Select(ps: seq<Proxy>, index: map<nat, Info>, origin: Info, now: int) returns (chosen: Option<Info>)
      modifies this`cooling
      ensures chosen == Alternative(ps, index, old(cooling), origin, now)
      ensures forall k :: IsCooling(cooling, k, now) == IsCooling(old(cooling), k, now)
    {
      if origin.managedBy != MANAGED_BY_XRAY {
        return None;
      }
      var candidates := [];
      for i := 0 to |ps|
        invariant candidates == Candidates(ps[..i], index, old(cooling), origin, now)
        invariant forall k :: IsCooling(cooling, k, now) == IsCooling(old(cooling), k, now)
      {
        assert ps[..i + 1][..i] == ps[..i];
        var p := ps[i];
        if p.id == 0 || p.id == origin.id || !ManagedByXray(p) || !p.enabled {
          continue;
        }
        var isCooling := CheckCooling(p.id, now);
        if isCooling || p.id !in index || index[p.id].url == "" {
          continue;
        }
        candidates := candidates + [CandidateOf(p, index[p.id])];
      }
      assert ps[..|ps|] == ps;
      if |candidates| == 0 {
        return None;
      }
      return Some(Best(candidates).info);
    }

    /** promoteAlternativeManagedProxy */
    method Promote(ps: seq<Proxy>, index: map<nat, Info>, origin: Info, now: int) returns (chosen: Option<Info>)
      modifies this
      ensures chosen == Alternative(ps, index, old(cooling), origin, now)
      ensures Alike(View(), Promoted(old(View()), ps, index, origin, now), now)
    {
      chosen := Select(ps, index, origin, now);
      if chosen.Some? {
        AlikeAfter(View(), old(View()), origin, chosen.value, now);
        SetFailover(origin, chosen.value, now);
      }
    }
  }
}
