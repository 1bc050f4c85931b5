/**
 What the start of the core makes of the store, record by record: how every profile comes out, how its
 managed proxy looks, and what that proxy keeps from before.
 */
module CoreLooks {
  import opened Text
  import opened StoreData
  import opened CorePorts
  import opened CoreSync
  import opened StoreOps
  import opened StoreInvariant

  // ---------- what managed proxies keep ----------

  predicate SameRest(p: Proxy, q: Proxy) {
    p.id == q.id && p.country == q.country && p.lastTest == q.lastTest && p.history == q.history
  }

  predicate Untested(p: Proxy) {
    p.country == "" && p.lastTest == None && p.history == []
  }

  /** Stored proxies keep their ids, countries and tests; new ones have none yet. */
  ghost predicate RestKept(orig: seq<Proxy>, ps: seq<Proxy>) {
    && |orig| <= |ps| && (forall j :: 0 <= j < |orig| ==> SameRest(ps[j], orig[j]))
    && forall j :: |orig| <= j < |ps| ==> Untested(ps[j])
  }

  lemma FillRest(orig: seq<Proxy>, st: Adopting, i: nat, at: nat, f: Profile, now: int)
    requires RestKept(orig, st.proxies)
    ensures RestKept(orig, Fill(st, i, at, f, now).proxies)
  {
  }

  lemma {:induction false} AdoptRest(orig: seq<Proxy>, fs: seq<Profile>, next: nat, now: int, n: nat)
    requires n <= |fs|
    ensures RestKept(orig, Adopt(orig, fs, next, now, n).proxies)
  {
    if n > 0 {
      var st := Adopt(orig, fs, next, now, n - 1);
      var f := NormalProfile(st.profiles[n - 1]);
      AdoptRest(orig, fs, next, now, n - 1);
      FillRest(orig, WithPlace(orig, st, f, now), n - 1, Place(orig, st, f), f, now);
    }
  }

  /** The managed proxies of the first `n` profiles have just been touched. */
  ghost predicate Touched(ps: seq<Proxy>, fs: seq<Profile>, n: nat, now: int) {
    forall j, k :: 0 <= j < |ps| && 0 <= k < n <= |fs| && ManagedByXray(ps[j]) && ps[j].managedRefID == fs[k].id ==>
                     ps[j].updatedAt == now
  }

  lemma AdoptOneTouches(orig: seq<Proxy>, st: Adopting, fs: seq<Profile>, k: nat, now: int)
    requires k < |fs| == |st.profiles| && st.profiles[k] == fs[k] && Touched(st.proxies, fs, k, now)
    requires Place(orig, st, NormalProfile(fs[k])) <= |st.proxies|
    requires Choose(orig, NormalProfile(fs[k])).Some? ==> Choose(orig, NormalProfile(fs[k])).value < |st.proxies|
    requires OneEach(AdoptOne(orig, st, k, now).proxies)
    ensures Touched(AdoptOne(orig, st, k, now).proxies, fs, k + 1, now)
  {
    var place, t := Place(orig, st, NormalProfile(fs[k])), AdoptOne(orig, st, k, now);
    assert t.proxies[place].managedRefID == fs[k].id && ManagedByXray(t.proxies[place]);
    forall j, m | 0 <= j < |t.proxies| && 0 <= m < k + 1 && ManagedByXray(t.proxies[j])
                  && t.proxies[j].managedRefID == fs[m].id
      ensures t.proxies[j].updatedAt == now
    {
      if j != place {
        assert t.proxies[j] == st.proxies[j];
        assert m != k;
      }
    }
  }

  /** What is known when the next profile is about to adopt its proxy. */
  lemma AdoptingNext(s: Store, now: int, n: nat) returns (st: Adopting)
    requires Inv(s) && n < |s.profiles|
    ensures st == Adopt(s.proxies, s.profiles, s.nextProxyID, now, n) && st.profiles[n] == s.profiles[n]
    ensures var c := Choose(s.proxies, NormalProfile(s.profiles[n])); c.Some? ==> c.value < |st.proxies|
    ensures OneEach(AdoptOne(s.proxies, st, n, now).proxies)
  {
    st := Adopt(s.proxies, s.profiles, s.nextProxyID, now, n);
    var before := AdoptKeeps(s, now, n);
    var after := AdoptKeeps(s, now, n + 1);
    assert SoundLink(s.profiles[n], s.proxies, s.nextProxyID);
    ChooseMeaning(s.proxies, NormalProfile(s.profiles[n]), s.nextProxyID);
  }

  lemma {:induction false} AdoptTouches(s: Store, now: int, n: nat)
    requires Inv(s) && n <= |s.profiles|
    ensures Touched(Adopt(s.proxies, s.profiles, s.nextProxyID, now, n).proxies, s.profiles, n, now)
  {
    if n > 0 {
      AdoptTouches(s, now, n - 1);
      var st := AdoptingNext(s, now, n - 1);
      AdoptOneTouches(s.proxies, st, s.profiles, n - 1, now);
    }
  }

  // ---------- how things look ----------

  /** The managed proxy of a profile. */
  ghost predicate Looks(p: Proxy, f: Profile, now: int) {
    && p.name == "[XRAY] " + (if TrimSpace(f.name) == "" then "\U{672A}\U{547D}\U{540D}\U{8282}\U{70B9}"
                              else TrimSpace(f.name))
    && p.group == "XRAY" && p.source == Managed && p.managedBy == "xray" && p.managedRefID == f.id
    && p.kind == "dokodemo" && p.enabled == f.enabled && p.host == "127.0.0.1" && p.port == f.localPort
    && p.updatedAt == now
  }

  /** The proxy that was managed for the profile before, with its country and its tests, or a new one. */
  ghost predicate ComesFrom(s: Store, p: Proxy, f: Profile) {
    if exists i :: IsManagedFor(s, i, f) then exists i :: IsManagedFor(s, i, f) && SameRest(p, s.proxies[i])
    else p.id >= s.nextProxyID && Untested(p)
  }

  ghost predicate IsManagedFor(s: Store, i: int, f: Profile) {
    0 <= i < |s.proxies| && s.proxies[i].managedBy == "xray" && s.proxies[i].managedRefID == f.id
  }

  ghost predicate HasItsProxy(s: Store, t: Store, f: Profile, now: int) {
    exists i :: 0 <= i < |t.proxies| && t.proxies[i].id == f.managedProxyID && Looks(t.proxies[i], f, now) &&
                ComesFrom(s, t.proxies[i], f)
  }

  lemma LinkedLooks(st: Adopting, fs: seq<Profile>, k: nat, at: nat, now: int)
    requires k < |fs| == |st.profiles| && LinkedAt(st, fs, k, at) && Touched(st.proxies, fs, |fs|, now)
    requires fs[k].localPort >= 0
    ensures Looks(st.proxies[at], st.profiles[k], now)
  {
  }

  lemma LinkedStays(st: Adopting, fs: seq<Profile>, k: nat, at: nat)
    requires k < |fs| == |st.profiles| && LinkedAt(st, fs, k, at)
    ensures st.proxies[at] in WithoutOrphans(st.proxies, ProfileIds(fs))
  {
    KeptMembers(st.proxies, ProfileIds(fs));
    ProfileMembers(fs);
  }

  lemma AdoptedLooks(s: Store, now: int, k: nat)
    requires Inv(s) && k < |s.profiles| && s.profiles[k].localPort >= 0
    ensures HasItsProxy(s, Sync(s, now), Sync(s, now).profiles[k], now)
  {
    var at := AdoptKeeps(s, now, |s.profiles|);
    var st := Adopt(s.proxies, s.profiles, s.nextProxyID, now, |s.profiles|);
    AdoptTouches(s, now, |s.profiles|);
    AdoptRest(s.proxies, s.profiles, s.nextProxyID, now, |s.profiles|);
    assert LinkedAt(st, s.profiles, k, at[k]);
    LinkedLooks(st, s.profiles, k, at[k], now);
    OriginOf(s, st, at, k);
    LinkedStays(st, s.profiles, k, at[k]);
    ItsProxy(s, Sync(s, now), st.profiles[k], st.proxies[at[k]], now);
  }

  lemma ItsProxy(s: Store, t: Store, f: Profile, p: Proxy, now: int)
    requires p in t.proxies && p.id == f.managedProxyID && Looks(p, f, now) && ComesFrom(s, p, f)
    ensures HasItsProxy(s, t, f, now)
  {
    var i :| 0 <= i < |t.proxies| && t.proxies[i] == p;
  }

  lemma OriginOf(s: Store, st: Adopting, at: seq<nat>, k: nat)
    requires Inv(s) && AdoptInv(s.proxies, s.profiles, s.nextProxyID, st, at) && RestKept(s.proxies, st.proxies)
    requires k < |at| == |s.profiles| && LinkedAt(st, s.profiles, k, at[k])
    ensures ComesFrom(s, st.proxies[at[k]], st.profiles[k])
  {
    var f := st.profiles[k];
    if i :| IsManagedFor(s, i, f) {
      assert SameIdentity(st.proxies[i], s.proxies[i]);
      assert i == at[k];
    }
    if at[k] < |s.proxies| {
      assert SameIdentity(st.proxies[at[k]], s.proxies[at[k]]);
      assert IsManagedFor(s, at[k], f);
    }
  }

  /** How a profile is started: enabled only if the core supports it, on a port of its own. */
  ghost predicate Started(fs: seq<Profile>, k: nat, f: Profile, now: int)
    requires k < |fs|
  {
    var g := fs[k];
    && f.id == g.id && f.name == g.name && f.endpoint == g.endpoint && f.supported == g.supported
    && f.enabled == (g.enabled && g.supported)
    && f.updatedAt == (if g.enabled && !g.supported then now else g.updatedAt)
    && f.localPort > 0
    && if g.localPort > 0 && forall j :: k < j < |fs| ==> fs[j].localPort != g.localPort
       then f.localPort == g.localPort
       else 21001 <= f.localPort < 21001 + |fs|
  }

  lemma ProfileStarted(fs: seq<Profile>, k: nat, now: int)
    requires DistinctIds(fs) && k < |fs|
    ensures var f := DisableIncompatible(Allocate(fs), now)[k];
      Started(fs, k, f, now) && f.managedProxyID == fs[k].managedProxyID
  {
    Allocation(fs);
    assert DisableIncompatible(Allocate(fs), now)[k] == Disabled(Allocate(fs)[k], now);
    assert LastClaimant(fs, k) <==>
           fs[k].localPort > 0 && forall j :: k < j < |fs| ==> fs[j].localPort != fs[k].localPort;
  }

  lemma PositiveIsNormal(fs: seq<Profile>)
    requires forall k :: 0 <= k < |fs| ==> fs[k].localPort > 0
    ensures Normal(fs) == fs
  {
  }

  function Prepared(s: Store, now: int): Store {
    s.(profiles := DisableIncompatible(Allocate(s.profiles), now))
  }

  lemma StartCommits(s: Store, now: int)
    requires Inv(s)
    ensures Commit(s, SyncRuntime, now) == Sync(Prepared(s, now), now)
  {
    SyncRuntimeKeeps(s, now);
    RuntimePorts(s, now);
    PositiveIsNormal(DoSyncRuntime(s, now).profiles);
  }

  /**
   After the core has been started every profile comes out as it should and has its managed proxy,
   which is the one that it had before, if there was one.
   */
  lemma StartedCore(s: Store, now: int, k: nat)
    requires Inv(s) && k < |s.profiles|
    ensures var t := Commit(s, SyncRuntime, now);
      |t.profiles| == |s.profiles| && Started(s.profiles, k, t.profiles[k], now)
      && HasItsProxy(s, t, t.profiles[k], now)
  {
    var u := Prepared(s, now);
    StartCommits(s, now);
    RuntimeProfilesKeep(s, now);
    ProfileStarted(s.profiles, k, now);
    SyncedProfile(u, now, k);
    AdoptedLooks(u, now, k);
    SameOrigin(s, u, Sync(u, now), Sync(u, now).profiles[k], now);
  }

  lemma SyncedProfile(u: Store, now: int, k: nat)
    requires Inv(u) && k < |u.profiles|
    ensures |Sync(u, now).profiles| == |u.profiles|
    ensures Sync(u, now).profiles[k] == u.profiles[k].(managedProxyID := Sync(u, now).profiles[k].managedProxyID)
  {
    SyncBijection(u, now);
  }

  lemma SameOrigin(s: Store, u: Store, t: Store, f: Profile, now: int)
    requires u.proxies == s.proxies && u.nextProxyID == s.nextProxyID && HasItsProxy(u, t, f, now)
    ensures HasItsProxy(s, t, f, now)
  {
    var i :| 0 <= i < |t.proxies| && t.proxies[i].id == f.managedProxyID && Looks(t.proxies[i], f, now)
        && ComesFrom(u, t.proxies[i], f);
    assert forall j :: IsManagedFor(s, j, f) <==> IsManagedFor(u, j, f);
    assert ComesFrom(s, t.proxies[i], f);
  }
}
