/**
 The synchronization of managed proxies with core profiles: every profile gets its proxy back or a
 new one, the proxy is made to mirror the profile, and managed proxies without a profile go.
 */
module CoreSync {
  import opened Text
  import opened StoreData

  const UNNAMED := "\U{672A}\U{547D}\U{540D}\U{8282}\U{70B9}"

  function ManagedName(name: string): string {
    "[XRAY] " + (if TrimSpace(name) == "" then UNNAMED else TrimSpace(name))
  }

  /** A proxy made to mirror a profile. */
  function Mirror(p: Proxy, f: Profile, now: int): Proxy {
    p.(name := ManagedName(f.name), group := "XRAY", source := Managed, managedBy := MANAGED_BY_XRAY,
       managedRefID := f.id,
       kind := "dokodemo", enabled := f.enabled, host := LOCAL_HOST, port := f.localPort, updatedAt := now)
  }

  function NewManaged(id: nat, f: Profile, now: int): Proxy {
    Proxy(id, ManagedName(f.name), "XRAY", "", Managed, MANAGED_BY_XRAY, f.id, "dokodemo", f.enabled, LOCAL_HOST,
          f.localPort, None, [], now)
  }

  /** proxyIndexByID: the last proxy with this id. */
  function IndexById(ps: seq<Proxy>, id: nat): Option<nat> {
    if ps == [] then None
    else if ps[|ps| - 1].id == id then Some(|ps| - 1)
    else IndexById(ps[..|ps| - 1], id)
  }

  /** managedIndexByProfile: the last proxy that is managed for this profile. */
  function IndexByProfile(ps: seq<Proxy>, profileID: nat): Option<nat> {
    if ps == [] then None
    else if ManagedByXray(ps[|ps| - 1]) && ps[|ps| - 1].managedRefID > 0 && ps[|ps| - 1].managedRefID == profileID
    then Some(|ps| - 1)
    else IndexByProfile(ps[..|ps| - 1], profileID)
  }

  /** The proxy that a profile takes: the one it links to, or else the one that is managed for it. */
  function Choose(orig: seq<Proxy>, f: Profile): Option<nat> {
    if f.managedProxyID > 0 && IndexById(orig, f.managedProxyID).Some? then IndexById(orig, f.managedProxyID)
    else IndexByProfile(orig, f.id)
  }

  datatype Adopting = Adopting(proxies: seq<Proxy>, profiles: seq<Profile>, next: nat)

  /** Where a profile's proxy is, once a new one has been appended if need be. */
  function Place(orig: seq<Proxy>, st: Adopting, f: Profile): nat {
    if Choose(orig, f).Some? then Choose(orig, f).value else |st.proxies|
  }

  function WithPlace(orig: seq<Proxy>, st: Adopting, f: Profile, now: int): Adopting {
    if Choose(orig, f).Some? then st
    else st.(proxies := st.proxies + [NewManaged(st.next, f, now)], next := st.next + 1)
  }

  function Fill(st: Adopting, i: nat, at: nat, f: Profile, now: int): Adopting {
    if i < |st.profiles| && at < |st.proxies|
    then st.(proxies := st.proxies[at := Mirror(st.proxies[at], f, now)],
             profiles := st.profiles[i := st.profiles[i].(managedProxyID := st.proxies[at].id)])
    else st
  }

  function AdoptOne(orig: seq<Proxy>, st: Adopting, i: nat, now: int): Adopting
    requires i < |st.profiles|
  {
    var f := NormalProfile(st.profiles[i]);
    Fill(WithPlace(orig, st, f, now), i, Place(orig, st, f), f, now)
  }

  function Adopt(orig: seq<Proxy>, fs: seq<Profile>, next: nat, now: int, n: nat): (st: Adopting)
    requires n <= |fs|
    ensures |st.profiles| == |fs|
  {
    if n == 0 then Adopting(orig, fs, next) else AdoptOne(orig, Adopt(orig, fs, next, now, n - 1), n - 1, now)
  }

  predicate Orphan(p: Proxy, active: set<nat>) {
    ManagedByXray(p) && p.managedRefID !in active
  }

  function WithoutOrphans(ps: seq<Proxy>, active: set<nat>): seq<Proxy> {
    if ps == [] then []
    else WithoutOrphans(ps[..|ps| - 1], active) + (if Orphan(ps[|ps| - 1], active) then [] else [ps[|ps| - 1]])
  }

  function OrphanIds(ps: seq<Proxy>, active: set<nat>): set<nat> {
    if ps == [] then {}
    else OrphanIds(ps[..|ps| - 1], active) + (if Orphan(ps[|ps| - 1], active) then {ps[|ps| - 1].id} else {})
  }

  function ProfileIds(fs: seq<Profile>): set<nat> {
    if fs == [] then {} else ProfileIds(fs[..|fs| - 1]) + {fs[|fs| - 1].id}
  }

  function CountManaged(ps: seq<Proxy>): nat {
    if ps == [] then 0 else CountManaged(ps[..|ps| - 1]) + (if ManagedByXray(ps[|ps| - 1]) then 1 else 0)
  }

  /** syncManagedCoreProxies: the store afterwards. */
  function Sync(s: Store, now: int): Store {
    var st := Adopt(s.proxies, s.profiles, s.nextProxyID, now, |s.profiles|);
    var active := ProfileIds(s.profiles);
    s.(proxies := WithoutOrphans(st.proxies, active), profiles := st.profiles, nextProxyID := st.next,
       keys := Unbound(s.keys, OrphanIds(st.proxies, active), now))
  }

  // ---------- finding the proxy of a profile ----------

  lemma {:induction false} IndexByIdMeaning(ps: seq<Proxy>, id: nat)
    ensures match IndexById(ps, id)
      case None => forall i :: 0 <= i < |ps| ==> ps[i].id != id
      case Some(i) => i < |ps| && ps[i].id == id
  {
    if ps != [] && ps[|ps| - 1].id != id {
      IndexByIdMeaning(ps[..|ps| - 1], id);
    }
  }

  lemma {:induction false} IndexByProfileMeaning(ps: seq<Proxy>, profileID: nat)
    requires profileID > 0
    ensures match IndexByProfile(ps, profileID)
      case None => forall i :: 0 <= i < |ps| ==> !(ManagedByXray(ps[i]) && ps[i].managedRefID == profileID)
      case Some(i) => i < |ps| && ManagedByXray(ps[i]) && ps[i].managedRefID == profileID
  {
    if ps != [] {
      IndexByProfileMeaning(ps[..|ps| - 1], profileID);
    }
  }

  /** With sound links a profile chooses the proxy that is managed for it, if there is one. */
  lemma ChooseMeaning(orig: seq<Proxy>, f: Profile, next: nat)
    requires SoundLink(f, orig, next) && f.id > 0
    ensures match Choose(orig, f)
      case None => forall i :: 0 <= i < |orig| ==> !(ManagedByXray(orig[i]) && orig[i].managedRefID == f.id)
      case Some(i) => i < |orig| && ManagedByXray(orig[i]) && orig[i].managedRefID == f.id
  {
    IndexByIdMeaning(orig, f.managedProxyID);
    IndexByProfileMeaning(orig, f.id);
  }

  /** Whether or not its link is sound: if a stored proxy has the id that a profile links to, it is chosen. */
  lemma LinkComesFirst(orig: seq<Proxy>, f: Profile, j: nat)
    requires f.managedProxyID > 0 && j < |orig| && orig[j].id == f.managedProxyID
    ensures match Choose(orig, f)
      case None => false
      case Some(i) => i < |orig| && orig[i].id == f.managedProxyID
  {
    IndexByIdMeaning(orig, f.managedProxyID);
  }

  // ---------- the invariant of the loop over the profiles ----------

  /** The proxy is the one managed for the profile, and shows what the profile says. */
  predicate Mirrors(p: Proxy, f: Profile) {
    && ManagedByXray(p) && p.managedRefID == f.id && p.source == Managed
    && p.name == ManagedName(f.name) && p.group == "XRAY" && p.kind == "dokodemo"
    && p.enabled == f.enabled && p.host == LOCAL_HOST && p.port == NormalProfile(f).localPort
  }

  predicate SameIdentity(p: Proxy, q: Proxy) {
    p.id == q.id && p.managedBy == q.managedBy && p.managedRefID == q.managedRefID
  }

  ghost predicate LinkedAt(st: Adopting, fs: seq<Profile>, k: nat, at: nat)
    requires k < |st.profiles| == |fs|
  {
    at < |st.proxies| && Mirrors(st.proxies[at], fs[k]) && st.profiles[k] == fs[k].(managedProxyID := st.proxies[at].id)
  }

  /** The proxies that were there keep their identity, and only managed ones change at all. */
  ghost predicate Inherited(orig: seq<Proxy>, ps: seq<Proxy>) {
    && |orig| <= |ps|
    && forall j :: 0 <= j < |orig| ==> SameIdentity(ps[j], orig[j]) && (ManagedByXray(orig[j]) || ps[j] == orig[j])
  }

  /** New proxies have the next ids in turn, and are managed. */
  ghost predicate Appended(n: nat, ps: seq<Proxy>, next: nat) {
    forall j :: n <= j < |ps| ==> ps[j].id == next + (j - n) && ManagedByXray(ps[j])
  }

  /** The first `|at|` profiles have their proxies, at these places. */
  ghost predicate AdoptInv(orig: seq<Proxy>, fs: seq<Profile>, next: nat, st: Adopting, at: seq<nat>) {
    && |at| <= |fs| == |st.profiles|
    && Inherited(orig, st.proxies) && Appended(|orig|, st.proxies, next)
    && st.next == next + (|st.proxies| - |orig|)
    && (forall k :: 0 <= k < |at| ==> LinkedAt(st, fs, k, at[k]))
    && (forall k :: |at| <= k < |fs| ==> st.profiles[k] == fs[k])
    && (forall j :: |orig| <= j < |st.proxies| ==> j in at)
    && OneEach(st.proxies)
  }

  ghost predicate DistinctProfiles(fs: seq<Profile>) {
    forall i, j :: 0 <= i < j < |fs| ==> fs[i].id != fs[j].id
  }

  lemma NewOneKeepsApart(orig: seq<Proxy>, fs: seq<Profile>, next: nat, st: Adopting, at: seq<nat>, p: Proxy)
    requires AdoptInv(orig, fs, next, st, at) && |at| < |fs| && DistinctProfiles(fs)
    requires p.managedRefID == fs[|at|].id
    requires forall j :: 0 <= j < |orig| ==> !(ManagedByXray(orig[j]) && orig[j].managedRefID == p.managedRefID)
    ensures OneEach(st.proxies + [p])
  {
    forall j | 0 <= j < |st.proxies| && ManagedByXray(st.proxies[j])
      ensures st.proxies[j].managedRefID != p.managedRefID
    {
      if j >= |orig| {
        assert j in at;
        var k :| 0 <= k < |at| && at[k] == j;
        assert LinkedAt(st, fs, k, at[k]);
      }
    }
  }

  /** A new proxy is appended for the next profile. */
  lemma NewOneAdopted(orig: seq<Proxy>, fs: seq<Profile>, next: nat, st: Adopting, at: seq<nat>, now: int)
    requires AdoptInv(orig, fs, next, st, at) && |at| < |fs| && DistinctProfiles(fs)
    requires Choose(orig, NormalProfile(fs[|at|])).None?
    requires forall j :: 0 <= j < |orig| ==> !(ManagedByXray(orig[j]) && orig[j].managedRefID == fs[|at|].id)
    ensures AdoptInv(orig, fs, next, AdoptOne(orig, st, |at|, now), at + [|st.proxies|])
  {
    var f := NormalProfile(fs[|at|]);
    var p := Mirror(NewManaged(st.next, f, now), f, now);
    NewOneKeepsApart(orig, fs, next, st, at, p);
    var t, more := AdoptOne(orig, st, |at|, now), at + [|st.proxies|];
    assert t.proxies == st.proxies + [p];
    forall k | 0 <= k < |more| ensures LinkedAt(t, fs, k, more[k]) {
      if k < |at| {
        assert LinkedAt(st, fs, k, at[k]);
      }
    }
    forall j | |orig| <= j < |t.proxies| ensures j in more {
      if j < |st.proxies| {
        assert j in at;
      } else {
        assert more[|at|] == j;
      }
    }
  }

  /** The next profile takes over the proxy that is managed for it. */
  lemma OldOneAdopted(orig: seq<Proxy>, fs: seq<Profile>, next: nat, st: Adopting, at: seq<nat>, now: int)
    requires AdoptInv(orig, fs, next, st, at) && |at| < |fs| && DistinctProfiles(fs)
    requires Choose(orig, NormalProfile(fs[|at|])).Some?
    requires var j := Choose(orig, NormalProfile(fs[|at|])).value;
      j < |orig| && ManagedByXray(orig[j]) && orig[j].managedRefID == fs[|at|].id
    ensures AdoptInv(orig, fs, next, AdoptOne(orig, st, |at|, now), at + [Choose(orig, NormalProfile(fs[|at|])).value])
  {
    var j := Choose(orig, NormalProfile(fs[|at|])).value;
    var t, more := AdoptOne(orig, st, |at|, now), at + [j];
    assert t.proxies == st.proxies[j := Mirror(st.proxies[j], NormalProfile(fs[|at|]), now)];
    forall k | 0 <= k < |more| ensures LinkedAt(t, fs, k, more[k]) {
      if k < |at| {
        assert LinkedAt(st, fs, k, at[k]);
        assert at[k] != j;
      }
    }
    forall i | |orig| <= i < |t.proxies| ensures i in more {
      assert i in at;
    }
    OnePlaceChanged(st.proxies, j, t.proxies[j]);
  }

  lemma OnePlaceChanged(ps: seq<Proxy>, j: nat, p: Proxy)
    requires OneEach(ps) && j < |ps| && SameIdentity(p, ps[j])
    ensures OneEach(ps[j := p])
  {
  }

  lemma {:induction false} AdoptKeeps(s: Store, now: int, n: nat) returns (at: seq<nat>)
    requires Inv(s) && n <= |s.profiles|
    ensures |at| == n && AdoptInv(s.proxies, s.profiles, s.nextProxyID,
                                  Adopt(s.proxies, s.profiles, s.nextProxyID, now, n), at)
  {
    if n == 0 {
      at := [];
    } else {
      at := AdoptKeeps(s, now, n - 1);
      var f := NormalProfile(s.profiles[n - 1]);
      var st := Adopt(s.proxies, s.profiles, s.nextProxyID, now, n - 1);
      assert SoundLink(s.profiles[n - 1], s.proxies, s.nextProxyID);
      ChooseMeaning(s.proxies, f, s.nextProxyID);
      if Choose(s.proxies, f).None? {
        NewOneAdopted(s.proxies, s.profiles, s.nextProxyID, st, at, now);
        at := at + [|st.proxies|];
      } else {
        OldOneAdopted(s.proxies, s.profiles, s.nextProxyID, st, at, now);
        at := at + [Choose(s.proxies, f).value];
      }
    }
  }

  // ---------- removing the orphans ----------

  lemma {:induction false} KeptMembers(ps: seq<Proxy>, active: set<nat>)
    ensures forall p :: p in WithoutOrphans(ps, active) <==> p in ps && !Orphan(p, active)
  {
    if ps != [] {
      KeptMembers(ps[..|ps| - 1], active);
      assert ps == ps[..|ps| - 1] + [ps[|ps| - 1]];
    }
  }

  lemma {:induction false} OrphanMembers(ps: seq<Proxy>, active: set<nat>)
    ensures forall id :: id in OrphanIds(ps, active) <==>
              exists i :: 0 <= i < |ps| && Orphan(ps[i], active) && ps[i].id == id
  {
    if ps != [] {
      var before := ps[..|ps| - 1];
      OrphanMembers(before, active);
      assert forall i :: 0 <= i < |before| ==> before[i] == ps[i];
    }
  }

  lemma {:induction false} ProfileMembers(fs: seq<Profile>)
    ensures forall id :: id in ProfileIds(fs) <==> exists i :: 0 <= i < |fs| && fs[i].id == id
  {
    if fs != [] {
      var before := fs[..|fs| - 1];
      ProfileMembers(before);
      assert forall i :: 0 <= i < |before| ==> before[i] == fs[i];
    }
  }

  lemma {:induction false} KeptStaysGood(ps: seq<Proxy>, next: nat, active: set<nat>)
    requires GoodProxyIds(ps, next)
    ensures GoodProxyIds(WithoutOrphans(ps, active), next)
  {
    if ps != [] {
      var n := |ps| - 1;
      var before := WithoutOrphans(ps[..n], active);
      KeptStaysGood(ps[..n], next, active);
      KeptMembers(ps[..n], active);
      forall i | 0 <= i < |before| ensures before[i].id != ps[n].id {
        assert before[i] in before;
        var j :| 0 <= j < n && ps[..n][j] == before[i];
      }
    }
  }

  lemma {:induction false} KeptStaysApart(ps: seq<Proxy>, active: set<nat>)
    requires OneEach(ps)
    ensures OneEach(WithoutOrphans(ps, active))
  {
    if ps != [] {
      var n := |ps| - 1;
      var before := WithoutOrphans(ps[..n], active);
      KeptStaysApart(ps[..n], active);
      KeptMembers(ps[..n], active);
      forall i | 0 <= i < |before| && ManagedByXray(before[i]) && ManagedByXray(ps[n])
        ensures before[i].managedRefID != ps[n].managedRefID
      {
        assert before[i] in before;
        var j :| 0 <= j < n && ps[..n][j] == before[i];
        assert ps[j] == before[i];
      }
    }
  }

  // ---------- proxies that are not managed ----------

  function Unmanaged(ps: seq<Proxy>): seq<Proxy> {
    if ps == [] then []
    else Unmanaged(ps[..|ps| - 1]) + (if ManagedByXray(ps[|ps| - 1]) then [] else [ps[|ps| - 1]])
  }

  lemma {:induction false} UnmanagedInherited(orig: seq<Proxy>, ps: seq<Proxy>, next: nat)
    requires Inherited(orig, ps) && Appended(|orig|, ps, next)
    ensures Unmanaged(ps) == Unmanaged(orig)
    decreases |ps|
  {
    var n := |ps| - 1;
    if |ps| > |orig| {
      UnmanagedInherited(orig, ps[..n], next);
    } else if ps != [] {
      assert SameIdentity(ps[n], orig[n]);
      UnmanagedInherited(orig[..n], ps[..n], next);
    }
  }

  lemma {:induction false} UnmanagedKept(ps: seq<Proxy>, active: set<nat>)
    ensures Unmanaged(WithoutOrphans(ps, active)) == Unmanaged(ps)
  {
    if ps != [] {
      var before, last := WithoutOrphans(ps[..|ps| - 1], active), ps[|ps| - 1];
      UnmanagedKept(ps[..|ps| - 1], active);
      if !Orphan(last, active) {
        assert (before + [last])[..|before|] == before;
      } else {
        assert WithoutOrphans(ps, active) == before;
        assert Unmanaged(ps) == Unmanaged(ps[..|ps| - 1]);
      }
    }
  }

  // ---------- counting ----------

  function ManagedRefs(ps: seq<Proxy>): set<nat> {
    if ps == [] then {}
    else ManagedRefs(ps[..|ps| - 1]) + (if ManagedByXray(ps[|ps| - 1]) then {ps[|ps| - 1].managedRefID} else {})
  }

  lemma {:induction false} RefMembers(ps: seq<Proxy>)
    ensures forall ref :: ref in ManagedRefs(ps) <==>
              exists i :: 0 <= i < |ps| && ManagedByXray(ps[i]) && ps[i].managedRefID == ref
  {
    if ps != [] {
      var before := ps[..|ps| - 1];
      RefMembers(before);
      assert forall i :: 0 <= i < |before| ==> before[i] == ps[i];
    }
  }

  lemma {:induction false} RefsCount(ps: seq<Proxy>)
    requires OneEach(ps)
    ensures CountManaged(ps) == |ManagedRefs(ps)|
  {
    if ps != [] {
      RefsCount(ps[..|ps| - 1]);
      RefMembers(ps[..|ps| - 1]);
    }
  }

  lemma {:induction false} ProfilesCount(fs: seq<Profile>)
    requires DistinctProfiles(fs)
    ensures |ProfileIds(fs)| == |fs|
  {
    if fs != [] {
      ProfilesCount(fs[..|fs| - 1]);
      ProfileMembers(fs[..|fs| - 1]);
    }
  }

  // ---------- what the synchronization achieves ----------

  /** The profile has its proxy: managed for it, a mirror of it, and linked from it. */
  ghost predicate HasProxy(f: Profile, ps: seq<Proxy>) {
    exists i :: 0 <= i < |ps| && Mirrors(ps[i], f) && ps[i].id == f.managedProxyID
  }

  ghost predicate HasProfile(p: Proxy, fs: seq<Profile>) {
    ManagedByXray(p) ==> exists k :: 0 <= k < |fs| && fs[k].id == p.managedRefID
  }

  /**
   The bijection: every profile has its proxy, no two managed proxies belong to one profile, and
   every managed proxy belongs to a profile.
   */
  ghost predicate Bijection(s: Store) {
    && (forall k :: 0 <= k < |s.profiles| ==> HasProxy(s.profiles[k], s.proxies))
    && OneEach(s.proxies)
    && forall i :: 0 <= i < |s.proxies| ==> HasProfile(s.proxies[i], s.profiles)
  }

  lemma AdoptedAreGood(orig: seq<Proxy>, fs: seq<Profile>, next: nat, st: Adopting, at: seq<nat>)
    requires AdoptInv(orig, fs, next, st, at) && GoodProxyIds(orig, next) && next > 0
    ensures GoodProxyIds(st.proxies, st.next)
  {
    forall i | 0 <= i < |st.proxies|
      ensures if i < |orig| then st.proxies[i].id == orig[i].id else st.proxies[i].id == next + (i - |orig|)
    {
      assert i < |orig| ==> SameIdentity(st.proxies[i], orig[i]);
    }
  }

  lemma ProxiesFound(fs: seq<Profile>, st: Adopting, at: seq<nat>, active: set<nat>, k: nat)
    requires k < |fs| == |st.profiles| == |at| && LinkedAt(st, fs, k, at[k]) && fs[k].id in active
    ensures HasProxy(st.profiles[k], WithoutOrphans(st.proxies, active))
  {
    var p, kept := st.proxies[at[k]], WithoutOrphans(st.proxies, active);
    KeptMembers(st.proxies, active);
    assert p in kept;
    var i :| 0 <= i < |kept| && kept[i] == p;
    assert Mirrors(kept[i], st.profiles[k]);
  }

  /** The profiles keep everything but their links, and what they link to stays. */
  lemma SyncLinks(s: Store, now: int)
    requires Inv(s)
    ensures |Sync(s, now).profiles| == |s.profiles|
    ensures forall k :: 0 <= k < |s.profiles| ==>
              Sync(s, now).profiles[k] == s.profiles[k].(managedProxyID := Sync(s, now).profiles[k].managedProxyID)
    ensures forall k :: 0 <= k < |s.profiles| ==> HasProxy(Sync(s, now).profiles[k], Sync(s, now).proxies)
  {
    var at := AdoptKeeps(s, now, |s.profiles|);
    var st := Adopt(s.proxies, s.profiles, s.nextProxyID, now, |s.profiles|);
    var active, t := ProfileIds(s.profiles), Sync(s, now);
    ProfileMembers(s.profiles);
    forall k | 0 <= k < |s.profiles|
      ensures HasProxy(t.profiles[k], t.proxies)
              && t.profiles[k] == s.profiles[k].(managedProxyID := t.profiles[k].managedProxyID)
    {
      assert LinkedAt(st, s.profiles, k, at[k]);
      ProxiesFound(s.profiles, st, at, active, k);
    }
  }

  lemma SyncBijection(s: Store, now: int)
    requires Inv(s)
    ensures Bijection(Sync(s, now)) && GoodProxyIds(Sync(s, now).proxies, Sync(s, now).nextProxyID)
    ensures ProfileIds(Sync(s, now).profiles) == ProfileIds(s.profiles)
    ensures |Sync(s, now).profiles| == |s.profiles|
    ensures forall k :: 0 <= k < |s.profiles| ==>
              Sync(s, now).profiles[k] == s.profiles[k].(managedProxyID := Sync(s, now).profiles[k].managedProxyID)
  {
    var at := AdoptKeeps(s, now, |s.profiles|);
    var st := Adopt(s.proxies, s.profiles, s.nextProxyID, now, |s.profiles|);
    var active, t := ProfileIds(s.profiles), Sync(s, now);
    SyncLinks(s, now);
    AdoptedAreGood(s.proxies, s.profiles, s.nextProxyID, st, at);
    KeptStaysGood(st.proxies, st.next, active);
    KeptStaysApart(st.proxies, active);
    KeptMembers(st.proxies, active);
    SameIds(s.profiles, t.profiles);
    ProfileMembers(t.profiles);
    forall i | 0 <= i < |t.proxies| ensures HasProfile(t.proxies[i], t.profiles) {
      assert t.proxies[i] in t.proxies;
      assert ManagedByXray(t.proxies[i]) ==> t.proxies[i].managedRefID in ProfileIds(t.profiles);
    }
  }

  lemma {:induction false} SameIds(fs: seq<Profile>, gs: seq<Profile>)
    requires |fs| == |gs| && forall k :: 0 <= k < |fs| ==> gs[k].id == fs[k].id
    ensures ProfileIds(gs) == ProfileIds(fs)
  {
    if fs != [] {
      SameIds(fs[..|fs| - 1], gs[..|gs| - 1]);
    }
  }

  /** A proxy with this id was there before and is there no longer. */
  predicate Lost(before: seq<Proxy>, after: seq<Proxy>, id: nat) {
    HasId(before, id) && !HasId(after, id)
  }

  lemma OrphanIsGone(ps: seq<Proxy>, next: nat, active: set<nat>, id: nat)
    requires GoodProxyIds(ps, next) && id in OrphanIds(ps, active)
    ensures !HasId(WithoutOrphans(ps, active), id)
  {
    OrphanMembers(ps, active);
    KeptMembers(ps, active);
    var i :| 0 <= i < |ps| && Orphan(ps[i], active) && ps[i].id == id;
    var kept := WithoutOrphans(ps, active);
    forall j | 0 <= j < |kept| ensures kept[j].id != id {
      assert kept[j] in kept;
      var m :| 0 <= m < |ps| && ps[m] == kept[j];
    }
  }

  lemma OthersStay(ps: seq<Proxy>, active: set<nat>, i: nat)
    requires i < |ps| && ps[i].id !in OrphanIds(ps, active)
    ensures HasId(WithoutOrphans(ps, active), ps[i].id)
  {
    OrphanMembers(ps, active);
    KeptMembers(ps, active);
    var kept := WithoutOrphans(ps, active);
    assert ps[i] in kept;
    var j :| 0 <= j < |kept| && kept[j] == ps[i];
  }

  lemma OrphanIsOld(orig: seq<Proxy>, fs: seq<Profile>, next: nat, st: Adopting, at: seq<nat>, id: nat)
    requires AdoptInv(orig, fs, next, st, at) && |at| == |fs| && id in OrphanIds(st.proxies, ProfileIds(fs))
    ensures HasId(orig, id)
  {
    ProfileMembers(fs);
    OrphanMembers(st.proxies, ProfileIds(fs));
    var i :| 0 <= i < |st.proxies| && Orphan(st.proxies[i], ProfileIds(fs)) && st.proxies[i].id == id;
    if i >= |orig| {
      NewIsNoOrphan(orig, fs, next, st, at, i);
    }
    assert SameIdentity(st.proxies[i], orig[i]);
  }

  lemma NewIsNoOrphan(orig: seq<Proxy>, fs: seq<Profile>, next: nat, st: Adopting, at: seq<nat>, i: nat)
    requires AdoptInv(orig, fs, next, st, at) && |at| == |fs| && |orig| <= i < |st.proxies|
    ensures !Orphan(st.proxies[i], ProfileIds(fs))
  {
    ProfileMembers(fs);
    assert i in at;
    var k :| 0 <= k < |at| && at[k] == i;
    assert LinkedAt(st, fs, k, at[k]);
  }

  lemma OrphansAreLost(orig: seq<Proxy>, fs: seq<Profile>, next: nat, st: Adopting, at: seq<nat>, id: nat)
    requires AdoptInv(orig, fs, next, st, at) && GoodProxyIds(orig, next) && next > 0 && |at| == |fs|
    ensures id in OrphanIds(st.proxies, ProfileIds(fs)) <==> Lost(orig, WithoutOrphans(st.proxies, ProfileIds(fs)), id)
  {
    AdoptedAreGood(orig, fs, next, st, at);
    if id in OrphanIds(st.proxies, ProfileIds(fs)) {
      OrphanIsOld(orig, fs, next, st, at, id);
      OrphanIsGone(st.proxies, st.next, ProfileIds(fs), id);
    } else if i :| 0 <= i < |orig| && orig[i].id == id {
      assert SameIdentity(st.proxies[i], orig[i]);
      OthersStay(st.proxies, ProfileIds(fs), i);
    }
  }

  /**
   The rest of what the synchronization does, from any store that meets the invariant: proxies that
   are not managed stay as they are and in order, exactly the keys of removed proxies are unbound,
   and there are as many managed proxies as profiles.
   */
  lemma SyncRest(s: Store, now: int)
    requires Inv(s)
    ensures var t := Sync(s, now);
      && Unmanaged(t.proxies) == Unmanaged(s.proxies)
      && CountManaged(t.proxies) == |s.profiles|
      && |t.keys| == |s.keys|
      && (forall i :: 0 <= i < |s.keys| ==>
            t.keys[i] == if Lost(s.proxies, t.proxies, s.keys[i].proxyID)
            then s.keys[i].(proxyID := 0, updatedAt := now) else s.keys[i])
  {
    var at := AdoptKeeps(s, now, |s.profiles|);
    var st := Adopt(s.proxies, s.profiles, s.nextProxyID, now, |s.profiles|);
    var active, t := ProfileIds(s.profiles), Sync(s, now);
    UnmanagedInherited(s.proxies, st.proxies, s.nextProxyID);
    UnmanagedKept(st.proxies, active);
    SyncBijection(s, now);
    RefsAreProfiles(t);
    RefsCount(t.proxies);
    ProfilesCount(t.profiles);
    forall i | 0 <= i < |s.keys|
      ensures t.keys[i] == if Lost(s.proxies, t.proxies, s.keys[i].proxyID)
              then s.keys[i].(proxyID := 0, updatedAt := now) else s.keys[i]
    {
      OrphansAreLost(s.proxies, s.profiles, s.nextProxyID, st, at, s.keys[i].proxyID);
    }
  }

  lemma RefsAreProfiles(s: Store)
    requires Bijection(s)
    ensures ManagedRefs(s.proxies) == ProfileIds(s.profiles)
  {
    RefMembers(s.proxies);
    ProfileMembers(s.profiles);
    forall ref | ref in ManagedRefs(s.proxies) ensures ref in ProfileIds(s.profiles) {
      var i :| 0 <= i < |s.proxies| && ManagedByXray(s.proxies[i]) && s.proxies[i].managedRefID == ref;
      assert HasProfile(s.proxies[i], s.profiles);
    }
    forall id | id in ProfileIds(s.profiles) ensures id in ManagedRefs(s.proxies) {
      var k :| 0 <= k < |s.profiles| && s.profiles[k].id == id;
      assert HasProxy(s.profiles[k], s.proxies);
    }
  }

  // ---------- the invariant survives ----------

  lemma LinkedIsSound(f: Profile, ps: seq<Proxy>, next: nat)
    requires GoodProxyIds(ps, next) && HasProxy(f, ps)
    ensures SoundLink(f, ps, next)
  {
  }

  lemma StillBound(before: seq<Proxy>, after: seq<Proxy>, k: ApiKey)
    requires Bound(k, before) && !Lost(before, after, k.proxyID)
    ensures Bound(k, after)
  {
  }

  predicate MarkedProxy(p: Proxy) {
    if ManagedByXray(p) then p.source == Managed else p.managedBy == ""
  }

  lemma ManagedAreMarked(s: Store, i: nat)
    requires Bijection(s) && i < |s.proxies| && ManagedByXray(s.proxies[i])
    ensures MarkedProxy(s.proxies[i])
  {
    assert HasProfile(s.proxies[i], s.profiles);
    var k :| 0 <= k < |s.profiles| && s.profiles[k].id == s.proxies[i].managedRefID;
    assert HasProxy(s.profiles[k], s.proxies);
    var j :| 0 <= j < |s.proxies| && Mirrors(s.proxies[j], s.profiles[k]);
    assert i == j;
  }

  lemma UnmanagedAreMarked(before: seq<Proxy>, after: seq<Proxy>, i: nat)
    requires Marked(before) && Unmanaged(after) == Unmanaged(before) && i < |after| && !ManagedByXray(after[i])
    ensures MarkedProxy(after[i])
  {
    UnmanagedMembers(after);
    UnmanagedMembers(before);
    assert after[i] in Unmanaged(after);
    var j :| 0 <= j < |before| && before[j] == after[i];
  }

  lemma SyncKeepsMarks(s: Store, now: int)
    requires Inv(s)
    ensures Marked(Sync(s, now).proxies)
  {
    SyncBijection(s, now);
    SyncRest(s, now);
    var t := Sync(s, now);
    forall i | 0 <= i < |t.proxies| ensures MarkedProxy(t.proxies[i]) {
      if ManagedByXray(t.proxies[i]) {
        ManagedAreMarked(t, i);
      } else {
        UnmanagedAreMarked(s.proxies, t.proxies, i);
      }
    }
  }

  lemma {:induction false} UnmanagedMembers(ps: seq<Proxy>)
    ensures forall p :: p in Unmanaged(ps) <==> p in ps && !ManagedByXray(p)
  {
    if ps != [] {
      UnmanagedMembers(ps[..|ps| - 1]);
      assert ps == ps[..|ps| - 1] + [ps[|ps| - 1]];
    }
  }

  lemma SyncKeeps(s: Store, now: int)
    requires Inv(s)
    ensures Inv(Sync(s, now))
  {
    var t := Sync(s, now);
    SyncBijection(s, now);
    SyncRest(s, now);
    SyncKeepsMarks(s, now);
    forall k | 0 <= k < |t.profiles|
      ensures SoundLink(t.profiles[k], t.proxies, t.nextProxyID) && t.profiles[k].id == s.profiles[k].id
    {
      assert HasProxy(t.profiles[k], t.proxies);
      LinkedIsSound(t.profiles[k], t.proxies, t.nextProxyID);
    }
    forall i | 0 <= i < |t.keys| ensures Bound(t.keys[i], t.proxies) && t.keys[i].id == s.keys[i].id {
      assert Bound(s.keys[i], s.proxies);
      if !Lost(s.proxies, t.proxies, s.keys[i].proxyID) {
        StillBound(s.proxies, t.proxies, s.keys[i]);
      }
    }
    var at := AdoptKeeps(s, now, |s.profiles|);
  }

  // ---------- a second synchronization ----------

  /** The same proxies, but for the time at which managed ones were last touched. */
  predicate SameButTime(ps: seq<Proxy>, qs: seq<Proxy>) {
    |ps| == |qs| && forall i :: 0 <= i < |ps| ==> SameProxy(ps[i], qs[i])
  }

  predicate SameProxy(p: Proxy, q: Proxy) {
    q == p.(updatedAt := q.updatedAt) && (ManagedByXray(p) || q == p)
  }

  lemma ChosenMirrors(s: Store, k: nat)
    requires Inv(s) && Bijection(s) && k < |s.profiles|
    ensures Settled(s.proxies, s.profiles[k])
  {
    var f := NormalProfile(s.profiles[k]);
    assert SoundLink(s.profiles[k], s.proxies, s.nextProxyID);
    ChooseMeaning(s.proxies, f, s.nextProxyID);
    assert HasProxy(s.profiles[k], s.proxies);
    var i :| 0 <= i < |s.proxies| && Mirrors(s.proxies[i], s.profiles[k])
        && s.proxies[i].id == s.profiles[k].managedProxyID;
    assert ManagedByXray(s.proxies[i]);
    assert Choose(s.proxies, f) == Some(i);
  }

  /** Mirroring a profile that is mirrored already changes the time alone. */
  lemma MirrorAgain(p: Proxy, q: Proxy, f: Profile, now: int)
    requires Mirrors(p, f) && SameProxy(p, q)
    ensures SameProxy(p, Mirror(q, NormalProfile(f), now))
  {
  }

  lemma AdoptOneAgain(orig: seq<Proxy>, st: Adopting, i: nat, j: nat, now: int)
    requires SameButTime(orig, st.proxies) && i < |st.profiles| && j < |orig|
    requires Choose(orig, NormalProfile(st.profiles[i])) == Some(j)
    requires Mirrors(orig[j], st.profiles[i]) && orig[j].id == st.profiles[i].managedProxyID
    ensures var next := AdoptOne(orig, st, i, now);
      SameButTime(orig, next.proxies) && next.profiles == st.profiles && next.next == st.next
  {
    var f := NormalProfile(st.profiles[i]);
    var ps := st.proxies[j := Mirror(st.proxies[j], f, now)];
    MirrorAgain(orig[j], st.proxies[j], st.profiles[i], now);
    forall k | 0 <= k < |ps| ensures SameProxy(orig[k], ps[k]) {
      assert SameProxy(orig[k], st.proxies[k]);
    }
    assert ps[j].id == st.profiles[i].managedProxyID;
    assert st.profiles[i := st.profiles[i].(managedProxyID := ps[j].id)] == st.profiles;
  }

  /** The profile finds the proxy that mirrors it already. */
  ghost predicate Settled(orig: seq<Proxy>, f: Profile) {
    var c := Choose(orig, NormalProfile(f));
    c.Some? && c.value < |orig| && Mirrors(orig[c.value], f) && orig[c.value].id == f.managedProxyID
  }

  ghost predicate AllSettled(orig: seq<Proxy>, fs: seq<Profile>) {
    forall k :: 0 <= k < |fs| ==> Settled(orig, fs[k])
  }

  lemma BijectionSettles(s: Store)
    requires Inv(s) && Bijection(s)
    ensures AllSettled(s.proxies, s.profiles)
  {
    forall k | 0 <= k < |s.profiles| ensures Settled(s.proxies, s.profiles[k]) {
      ChosenMirrors(s, k);
    }
  }

  lemma {:induction false} AdoptAgain(orig: seq<Proxy>, fs: seq<Profile>, next: nat, now: int, n: nat)
    requires n <= |fs| && AllSettled(orig, fs)
    ensures var st := Adopt(orig, fs, next, now, n);
      SameButTime(orig, st.proxies) && st.profiles == fs && st.next == next
  {
    if n > 0 {
      AdoptAgain(orig, fs, next, now, n - 1);
      var st := Adopt(orig, fs, next, now, n - 1);
      assert Settled(orig, fs[n - 1]);
      AdoptOneAgain(orig, st, n - 1, Choose(orig, NormalProfile(fs[n - 1])).value, now);
    }
  }

  lemma {:induction false} NothingToRemove(ps: seq<Proxy>, active: set<nat>)
    requires forall i :: 0 <= i < |ps| ==> !Orphan(ps[i], active)
    ensures WithoutOrphans(ps, active) == ps && OrphanIds(ps, active) == {}
  {
    if ps != [] {
      NothingToRemove(ps[..|ps| - 1], active);
    }
  }

  lemma NoOrphans(t: Store, ps: seq<Proxy>)
    requires Bijection(t) && SameButTime(t.proxies, ps)
    ensures forall i :: 0 <= i < |ps| ==> !Orphan(ps[i], ProfileIds(t.profiles))
  {
    ProfileMembers(t.profiles);
    forall i | 0 <= i < |ps| ensures !Orphan(ps[i], ProfileIds(t.profiles)) {
      assert SameProxy(t.proxies[i], ps[i]);
      assert HasProfile(t.proxies[i], t.profiles);
    }
  }

  /** If adopting changes neither profiles nor the counter and leaves no orphan, nothing but proxies changes. */
  lemma SyncWithoutOrphans(t: Store, ps: seq<Proxy>, later: int)
    requires Adopt(t.proxies, t.profiles, t.nextProxyID, later, |t.profiles|) == Adopting(ps, t.profiles, t.nextProxyID)
    requires forall i :: 0 <= i < |ps| ==> !Orphan(ps[i], ProfileIds(t.profiles))
    ensures Sync(t, later) == t.(proxies := ps)
  {
    NothingToRemove(ps, ProfileIds(t.profiles));
    assert Unbound(t.keys, {}, later) == t.keys;
  }

  lemma SyncOfSynced(t: Store, later: int)
    requires Inv(t) && Bijection(t)
    ensures var u := Sync(t, later);
      SameButTime(t.proxies, u.proxies) && u == t.(proxies := u.proxies)
  {
    BijectionSettles(t);
    AdoptAgain(t.proxies, t.profiles, t.nextProxyID, later, |t.profiles|);
    var ps := Adopt(t.proxies, t.profiles, t.nextProxyID, later, |t.profiles|).proxies;
    NoOrphans(t, ps);
    SyncWithoutOrphans(t, ps, later);
  }

  /** Synchronizing a synchronized store again touches nothing but times. */
  lemma SyncAgain(s: Store, now: int, later: int)
    requires Inv(s)
    ensures var t, u := Sync(s, now), Sync(Sync(s, now), later);
      SameButTime(t.proxies, u.proxies) && u == t.(proxies := u.proxies)
  {
    SyncKeeps(s, now);
    SyncBijection(s, now);
    SyncOfSynced(Sync(s, now), later);
  }
}
