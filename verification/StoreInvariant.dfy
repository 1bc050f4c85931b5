/** Every change keeps the invariant of the store, so every run of changes does. */
module StoreInvariant {
  import opened Text
  import opened StoreData
  import opened CorePorts
  import opened CoreSync
  import opened StoreOps
  import Grouping = ProxyGrouping
  import Sorting

  // ---------- keys ----------

  lemma {:induction false} FirstKeyMeaning(keys: seq<ApiKey>, id: nat)
    ensures match FirstKey(keys, id)
      case None => forall i :: 0 <= i < |keys| ==> keys[i].id != id
      case Some(i) => i < |keys| && keys[i].id == id
  {
    if keys != [] {
      FirstKeyMeaning(keys[..|keys| - 1], id);
    }
  }

  lemma WithKeyKeeps(s: Store, name: string, secret: string, weight: real, probeOnly: bool, proxyID: nat, now: int)
    requires Inv(s) && ValidReference(s.proxies, proxyID)
    ensures Inv(WithKey(s, name, secret, weight, probeOnly, proxyID, now))
  {
    var t := WithKey(s, name, secret, weight, probeOnly, proxyID, now);
    forall i | 0 <= i < |t.keys| ensures Bound(t.keys[i], t.proxies) {
      assert i < |s.keys| ==> Bound(s.keys[i], s.proxies);
    }
  }

  lemma CreateKeyKeeps(s: Store, r: KeyRequest, now: int)
    requires Inv(s) && DoCreateKey(s, r, now).Ok?
    ensures Inv(DoCreateKey(s, r, now).store)
  {
    WithKeyKeeps(s, TrimSpace(r.name), TrimSpace(r.secret), r.weight, r.probeOnly,
                 if r.proxy.Some? then r.proxy.value else 0, now);
  }

  lemma {:induction false} ImportKeysKeeps(s: Store, lines: seq<KeyLine>, now: int)
    requires Inv(s)
    ensures Inv(DoImportKeys(s, lines, now))
  {
    if lines != [] {
      var t, l := DoImportKeys(s, lines[..|lines| - 1], now), lines[|lines| - 1];
      ImportKeysKeeps(s, lines[..|lines| - 1], now);
      if l.KeyLine? {
        var name := if l.name.Some? then l.name.value else DefaultKeyName(t.nextKeyID);
        WithKeyKeeps(t, name, l.secret, l.weight, false, 0, now);
      }
    }
  }

  lemma UpdateKeyKeeps(s: Store, id: nat, e: KeyEdit, now: int)
    requires Inv(s) && DoUpdateKey(s, id, e, now).Ok?
    ensures Inv(DoUpdateKey(s, id, e, now).store)
  {
    FirstKeyMeaning(s.keys, id);
    var t := DoUpdateKey(s, id, e, now).store;
    forall i | 0 <= i < |t.keys| ensures Bound(t.keys[i], t.proxies) && t.keys[i].id == s.keys[i].id {
      assert Bound(s.keys[i], s.proxies);
    }
  }

  lemma DeleteKeyKeeps(s: Store, id: nat)
    requires Inv(s) && DoDeleteKey(s, id).Ok?
    ensures Inv(DoDeleteKey(s, id).store)
  {
    var i := FirstKey(s.keys, id).value;
    var t := DoDeleteKey(s, id).store;
    forall j | 0 <= j < |t.keys|
      ensures t.keys[j] == s.keys[if j < i then j else j + 1] && Bound(t.keys[j], t.proxies)
    {
      assert Bound(s.keys[if j < i then j else j + 1], s.proxies);
    }
  }

  predicate AllValid(ps: seq<Proxy>, assignment: map<int, nat>) {
    forall k :: k in assignment ==> ValidReference(ps, assignment[k])
  }

  lemma {:induction false} AssignedAreListed(ids: seq<int>, weighted: seq<nat>)
    ensures forall k :: k in Grouping.Assigned(ids, weighted) ==>
              exists i :: 0 <= i < |weighted| && weighted[i] == Grouping.Assigned(ids, weighted)[k]
  {
    if ids != [] && weighted != [] {
      AssignedAreListed(ids[..|ids| - 1], weighted);
      assert 0 <= (|ids| - 1) % |weighted| < |weighted|;
    }
  }

  lemma GroupBindingIsValid(s: Store, ids: seq<int>, group: string)
    requires Inv(s)
    ensures AllValid(s.proxies, Grouping.Assigned(ids, Grouping.Weighted(Grouping.RankedMembers(s.proxies, group))))
  {
    var members := Grouping.RankedMembers(s.proxies, group);
    var weighted := Grouping.Weighted(members);
    AssignedAreListed(ids, weighted);
    assert Grouping.DistinctIds(s.proxies);
    Grouping.RankedMembersMeaning(s.proxies, group);
    forall i | 0 <= i < |weighted| ensures HasId(s.proxies, weighted[i]) {
      Grouping.WeightedAreMembers(members, i);
      var j :| 0 <= j < |members| && members[j].id == weighted[i];
      assert members[j] in members;
      var m :| 0 <= m < |s.proxies| && s.proxies[m] == members[j];
    }
  }

  lemma BindKeysKeeps(s: Store, keyIDs: seq<nat>, proxyID: nat, group: string, now: int)
    requires Inv(s) && DoBindKeys(s, keyIDs, proxyID, group, now).Ok?
    ensures Inv(DoBindKeys(s, keyIDs, proxyID, group, now).store)
  {
    var ids := UniqueList(keyIDs);
    if ids != [] {
      if TrimSpace(group) != "" {
        GroupBindingIsValid(s, ids, TrimSpace(group));
      } else {
      }
    }
  }

  lemma {:induction false} DistinctIsDistinct(ids: seq<nat>)
    ensures forall i, j :: 0 <= i < j < |Distinct(ids)| ==> Distinct(ids)[i] != Distinct(ids)[j]
    ensures forall id :: id in Distinct(ids) <==> id in ids && id != 0
  {
    if ids != [] {
      DistinctIsDistinct(ids[..|ids| - 1]);
      assert ids == ids[..|ids| - 1] + [ids[|ids| - 1]];
    }
  }

  /** uniqueUintList lists every non-zero id once, in ascending order. */
  lemma UniqueListMeaning(ids: seq<nat>)
    ensures Sorting.Ascending(UniqueList(ids))
    ensures forall id :: id in UniqueList(ids) <==> id in ids && id != 0
  {
    DistinctIsDistinct(ids);
    Sorting.SortedSorts(Distinct(ids));
  }

  /**
   A bulk binding to a group with at least one enabled member: the keys asked for, and only they,
   are bound to members of the group, and each member gets its share by weight.
   */
  lemma GroupBindingIsFair(s: Store, keyIDs: seq<nat>, group: string, now: int, m: nat)
    requires Inv(s) && TrimSpace(group) != "" && UniqueList(keyIDs) != []
    requires m < |Grouping.RankedMembers(s.proxies, TrimSpace(group))|
    ensures var ids, members := UniqueList(keyIDs), Grouping.RankedMembers(s.proxies, TrimSpace(group));
      var assignment := Grouping.Assigned(ids, Grouping.Weighted(members));
      && DoBindKeys(s, keyIDs, 0, group, now) == Ok(s.(keys := Rebound(s.keys, assignment, now)))
      && (forall i :: 0 <= i < |ids| ==> ids[i] in assignment && HasId(members, assignment[ids[i]]))
      && (forall k :: k in assignment <==> k in ids)
      && Grouping.CountAll(Grouping.Shares(assignment, ids), members) == |ids|
      && Grouping.FairShare(Grouping.Count(Grouping.Shares(assignment, ids), members[m].id), |ids|,
                            Grouping.TotalWeight(members), Grouping.Weight(members[m]))
  {
    var ids, members := UniqueList(keyIDs), Grouping.RankedMembers(s.proxies, TrimSpace(group));
    UniqueListMeaning(keyIDs);
    assert Grouping.DistinctIds(s.proxies);
    Grouping.RankedMembersMeaning(s.proxies, TrimSpace(group));
    forall i | 0 <= i < |members| ensures members[i].enabled {
      assert members[i] in members;
    }
    Grouping.WeightedBinding(ids, members, m);
    Grouping.BindingConserves(ids, members);
    Grouping.WeightedLength(members);
    Grouping.EnabledWeighTotal(members);
    Grouping.AssignedMeaning(ids, Grouping.Weighted(members));
  }

  // ---------- adding and editing proxies ----------

  lemma AddProxyKeeps(s: Store, p: Proxy)
    requires Inv(s) && p.id == s.nextProxyID && p.managedBy == ""
    ensures Inv(s.(proxies := s.proxies + [p], nextProxyID := s.nextProxyID + 1))
  {
    var ps := s.proxies + [p];
    forall i | 0 <= i < |s.keys| ensures Bound(s.keys[i], ps) {
      if s.keys[i].proxyID != 0 {
        assert Bound(s.keys[i], s.proxies);
        var j :| 0 <= j < |s.proxies| && s.proxies[j].id == s.keys[i].proxyID;
        assert ps[j].id == s.keys[i].proxyID;
      }
    }
    forall k | 0 <= k < |s.profiles| ensures SoundLink(s.profiles[k], ps, s.nextProxyID + 1) {
      assert SoundLink(s.profiles[k], s.proxies, s.nextProxyID);
    }
  }

  /** A proxy may change in any way that keeps who it is and whether it is marked as managed. */
  lemma ChangeProxyKeeps(s: Store, i: nat, p: Proxy)
    requires Inv(s) && i < |s.proxies| && SameIdentity(p, s.proxies[i]) && p.source == s.proxies[i].source
    ensures Inv(s.(proxies := s.proxies[i := p]))
  {
    var ps := s.proxies[i := p];
    forall j | 0 <= j < |s.keys| ensures Bound(s.keys[j], ps) {
      assert Bound(s.keys[j], s.proxies);
      if s.keys[j].proxyID != 0 {
        var m :| 0 <= m < |s.proxies| && s.proxies[m].id == s.keys[j].proxyID;
        assert ps[m].id == s.keys[j].proxyID;
      }
    }
    forall k | 0 <= k < |s.profiles| ensures SoundLink(s.profiles[k], ps, s.nextProxyID) {
      assert SoundLink(s.profiles[k], s.proxies, s.nextProxyID);
    }
    OnePlaceChanged(s.proxies, i, p);
  }

  // ---------- dropping proxies ----------

  lemma {:induction false} KeepIfMembers(ps: seq<Proxy>, keep: Proxy -> bool)
    ensures forall p :: p in KeepIf(ps, keep) <==> p in ps && keep(p)
  {
    if ps != [] {
      KeepIfMembers(ps[..|ps| - 1], keep);
      assert ps == ps[..|ps| - 1] + [ps[|ps| - 1]];
    }
  }

  lemma {:induction false} KeepIfGood(ps: seq<Proxy>, next: nat, keep: Proxy -> bool)
    requires GoodProxyIds(ps, next)
    ensures GoodProxyIds(KeepIf(ps, keep), next)
  {
    if ps != [] {
      var n := |ps| - 1;
      var before := KeepIf(ps[..n], keep);
      KeepIfGood(ps[..n], next, keep);
      KeepIfMembers(ps[..n], keep);
      forall i | 0 <= i < |before| ensures before[i].id != ps[n].id {
        assert before[i] in before;
        var j :| 0 <= j < n && ps[..n][j] == before[i];
      }
    }
  }

  lemma {:induction false} KeepIfApart(ps: seq<Proxy>, keep: Proxy -> bool)
    requires OneEach(ps)
    ensures OneEach(KeepIf(ps, keep))
  {
    if ps != [] {
      var n := |ps| - 1;
      var before := KeepIf(ps[..n], keep);
      KeepIfApart(ps[..n], keep);
      KeepIfMembers(ps[..n], keep);
      forall i | 0 <= i < |before| && ManagedByXray(before[i]) && ManagedByXray(ps[n])
        ensures before[i].managedRefID != ps[n].managedRefID
      {
        assert before[i] in before;
        var j :| 0 <= j < n && ps[..n][j] == before[i];
        assert ps[j] == before[i];
      }
    }
  }

  /** The proxies that stay are proxies that were there. */
  ghost predicate Among(after: seq<Proxy>, before: seq<Proxy>) {
    forall i :: 0 <= i < |after| ==> after[i] in before
  }

  lemma LinksStaySound(fs: seq<Profile>, before: seq<Proxy>, after: seq<Proxy>, next: nat)
    requires SoundLinks(fs, before, next) && Among(after, before)
    ensures SoundLinks(fs, after, next)
  {
    forall k | 0 <= k < |fs| ensures SoundLink(fs[k], after, next) {
      assert SoundLink(fs[k], before, next);
      forall i | 0 <= i < |after| && after[i].id == fs[k].managedProxyID
        ensures ManagedByXray(after[i]) && after[i].managedRefID == fs[k].id
      {
        assert after[i] in before;
        var j :| 0 <= j < |before| && before[j] == after[i];
      }
    }
  }

  /** Proxies may be dropped, if every key of a dropped proxy is unbound. */
  lemma DropKeeps(s: Store, after: seq<Proxy>, removed: set<nat>, now: int)
    requires Inv(s) && Among(after, s.proxies) && GoodProxyIds(after, s.nextProxyID) && OneEach(after)
    requires forall i :: 0 <= i < |s.proxies| ==> s.proxies[i].id in removed || HasId(after, s.proxies[i].id)
    ensures Inv(s.(proxies := after, keys := Unbound(s.keys, removed, now)))
  {
    var keys := Unbound(s.keys, removed, now);
    forall i | 0 <= i < |keys| ensures Bound(keys[i], after) && keys[i].id == s.keys[i].id {
      assert Bound(s.keys[i], s.proxies);
    }
    forall i | 0 <= i < |after| ensures MarkedProxy(after[i]) {
      assert after[i] in s.proxies;
      var j :| 0 <= j < |s.proxies| && s.proxies[j] == after[i];
    }
    LinksStaySound(s.profiles, s.proxies, after, s.nextProxyID);
  }

  lemma FilterKeeps(s: Store, keep: Proxy -> bool, removed: set<nat>, now: int)
    requires Inv(s) && forall i :: 0 <= i < |s.proxies| && !keep(s.proxies[i]) ==> s.proxies[i].id in removed
    ensures Inv(s.(proxies := KeepIf(s.proxies, keep), keys := Unbound(s.keys, removed, now)))
  {
    var after := KeepIf(s.proxies, keep);
    KeepIfMembers(s.proxies, keep);
    KeepIfGood(s.proxies, s.nextProxyID, keep);
    KeepIfApart(s.proxies, keep);
    forall i | 0 <= i < |s.proxies| ensures s.proxies[i].id in removed || HasId(after, s.proxies[i].id) {
      if keep(s.proxies[i]) {
        assert s.proxies[i] in after;
        var j :| 0 <= j < |after| && after[j] == s.proxies[i];
      }
    }
    DropKeeps(s, after, removed, now);
  }

  lemma {:induction false} FirstProxyMeaning(ps: seq<Proxy>, id: nat)
    ensures match FirstProxy(ps, id)
      case None => forall i :: 0 <= i < |ps| ==> ps[i].id != id
      case Some(i) => i < |ps| && ps[i].id == id
  {
    if ps != [] {
      FirstProxyMeaning(ps[..|ps| - 1], id);
    }
  }

  lemma EditProxyKeeps(s: Store, id: nat, e: ProxyEdit, now: int)
    requires Inv(s) && DoEditProxy(s, id, e, now).Ok?
    ensures Inv(DoEditProxy(s, id, e, now).store)
  {
    var i := FirstProxy(s.proxies, id).value;
    ChangeProxyKeeps(s, i, EditedProxy(s.proxies[i], e).(updatedAt := now));
  }

  function WithoutAt(ps: seq<Proxy>, i: nat): seq<Proxy>
    requires i < |ps|
  {
    ps[..i] + ps[i + 1..]
  }

  lemma WithoutAtGood(ps: seq<Proxy>, next: nat, i: nat)
    requires i < |ps| && GoodProxyIds(ps, next) && OneEach(ps)
    ensures GoodProxyIds(WithoutAt(ps, i), next) && OneEach(WithoutAt(ps, i))
  {
    assert forall j :: 0 <= j < |ps| - 1 ==> WithoutAt(ps, i)[j] == ps[if j < i then j else j + 1];
  }

  lemma WithoutAtKeepsOthers(ps: seq<Proxy>, i: nat)
    requires i < |ps|
    ensures Among(WithoutAt(ps, i), ps)
    ensures forall j :: 0 <= j < |ps| ==> ps[j].id in {ps[i].id} || HasId(WithoutAt(ps, i), ps[j].id)
  {
    var after := WithoutAt(ps, i);
    forall j | 0 <= j < |after| ensures after[j] in ps {
      assert after[j] == ps[if j < i then j else j + 1];
    }
    forall j | 0 <= j < |ps| && j != i ensures HasId(after, ps[j].id) {
      assert after[if j < i then j else j - 1] == ps[j];
    }
  }

  lemma DeleteProxyKeeps(s: Store, id: nat, now: int)
    requires Inv(s) && DoDeleteProxy(s, id, now).Ok?
    ensures Inv(DoDeleteProxy(s, id, now).store)
  {
    FirstProxyMeaning(s.proxies, id);
    var i := FirstProxy(s.proxies, id).value;
    WithoutAtGood(s.proxies, s.nextProxyID, i);
    WithoutAtKeepsOthers(s.proxies, i);
    DropKeeps(s, WithoutAt(s.proxies, i), {id}, now);
  }

  lemma DeleteProxiesKeeps(s: Store, ids: seq<nat>, now: int)
    requires Inv(s) && DoDeleteProxies(s, ids, now).Ok?
    ensures Inv(DoDeleteProxies(s, ids, now).store)
  {
    FilterKeeps(s, NotIn(IdSet(ids)), IdSet(ids), now);
  }

  lemma {:induction false} DroppedMembers(ps: seq<Proxy>, keep: Proxy -> bool)
    ensures forall i :: 0 <= i < |ps| && !keep(ps[i]) ==> ps[i].id in DroppedIds(ps, keep)
  {
    if ps != [] {
      DroppedMembers(ps[..|ps| - 1], keep);
      assert forall i :: 0 <= i < |ps| - 1 ==> ps[..|ps| - 1][i] == ps[i];
    }
  }

  lemma CleanupKeeps(s: Store, o: CleanupOptions, now: int)
    requires Inv(s)
    ensures Inv(DoCleanup(s, o, now))
  {
    DroppedMembers(s.proxies, Keeping(o));
    FilterKeeps(s, Keeping(o), DroppedIds(s.proxies, Keeping(o)), now);
  }

  lemma {:induction false} FirstEndpointMeaning(ps: seq<Proxy>, f: Found)
    ensures FirstEndpoint(ps, f).Some? ==>
              FirstEndpoint(ps, f).value < |ps| && SameEndpoint(ps[FirstEndpoint(ps, f).value], f)
  {
    if ps != [] {
      FirstEndpointMeaning(ps[..|ps| - 1], f);
    }
  }

  lemma UpsertKeeps(s: Store, f: Found, defaultGroup: string, now: int)
    requires Inv(s)
    ensures Inv(DoUpsert(s, f, defaultGroup, now))
  {
    FirstEndpointMeaning(s.proxies, f);
    match FirstEndpoint(s.proxies, f)
    case None => AddProxyKeeps(s, Imported(s.nextProxyID, f, defaultGroup, now));
    case Some(i) => ChangeProxyKeeps(s, i, Refreshed(s.proxies[i], f, defaultGroup, now));
  }

  // ---------- core profiles ----------

  /** Profiles may change in any way that keeps ids and links. */
  lemma ChangeProfilesKeeps(s: Store, fs: seq<Profile>)
    requires Inv(s) && |fs| == |s.profiles|
    requires forall k :: 0 <= k < |fs| ==> SameLink(fs[k], s.profiles[k])
    ensures Inv(s.(profiles := fs))
  {
    forall k | 0 <= k < |fs| ensures SoundLink(fs[k], s.proxies, s.nextProxyID) && fs[k].id == s.profiles[k].id {
      assert SameLink(fs[k], s.profiles[k]);
      assert SoundLink(s.profiles[k], s.proxies, s.nextProxyID);
    }
  }

  predicate SameLink(f: Profile, g: Profile) {
    f.id == g.id && f.managedProxyID == g.managedProxyID
  }

  lemma CreateProfileKeeps(s: Store, f: Profile, now: int)
    requires Inv(s)
    ensures Inv(DoCreateProfile(s, f, now))
  {
    var t := DoCreateProfile(s, f, now);
    forall k | 0 <= k < |t.profiles| ensures SoundLink(t.profiles[k], t.proxies, t.nextProxyID) {
      if k < |s.profiles| {
        assert SoundLink(s.profiles[k], s.proxies, s.nextProxyID);
      }
    }
  }

  lemma AllocateKeeps(s: Store)
    requires Inv(s)
    ensures Inv(s.(profiles := Allocate(s.profiles)))
  {
    var fs := Allocate(s.profiles);
    Allocation(s.profiles);
    forall k | 0 <= k < |fs| ensures SameLink(fs[k], s.profiles[k]) {
    }
    ChangeProfilesKeeps(s, fs);
  }

  lemma {:induction false} ImportNodesKeeps(st: Importing, nodes: seq<NodeLine>, now: int)
    requires Inv(st.store)
    ensures Inv(ImportNodes(st, nodes, now).store)
  {
    if nodes != [] {
      var before, l := ImportNodes(st, nodes[..|nodes| - 1], now), nodes[|nodes| - 1];
      ImportNodesKeeps(st, nodes[..|nodes| - 1], now);
      if l.profile.Some? {
        CreateProfileKeeps(before.store, l.profile.value, now);
      }
    }
  }

  lemma ImportProfilesKeeps(s: Store, nodes: seq<NodeLine>, now: int)
    requires Inv(s)
    ensures Inv(DoImportProfiles(s, nodes, now))
  {
    AllocateKeeps(s);
    ImportNodesKeeps(ImportStart(s), nodes, now);
  }

  lemma EditProfileKeeps(s: Store, id: nat, e: ProfileEdit, now: int)
    requires Inv(s) && DoEditProfile(s, id, e, now).Ok?
    ensures Inv(DoEditProfile(s, id, e, now).store)
  {
    ChangeProfilesKeeps(s, DoEditProfile(s, id, e, now).store.profiles);
  }

  lemma {:induction false} KeptProfileMembers(fs: seq<Profile>, ids: set<nat>)
    ensures forall f :: f in KeptProfiles(fs, ids) ==> f in fs
  {
    if fs != [] {
      KeptProfileMembers(fs[..|fs| - 1], ids);
      assert fs == fs[..|fs| - 1] + [fs[|fs| - 1]];
    }
  }

  lemma OtherProfile(fs: seq<Profile>, f: Profile)
    requires fs != [] && f in fs[..|fs| - 1]
    requires forall i, j :: 0 <= i < j < |fs| ==> fs[i].id != fs[j].id
    ensures f.id != fs[|fs| - 1].id
  {
    var j :| 0 <= j < |fs| - 1 && fs[j] == f;
  }

  lemma {:induction false} KeptProfilesGood(fs: seq<Profile>, next: nat, ids: set<nat>)
    requires GoodProfileIds(fs, next)
    ensures GoodProfileIds(KeptProfiles(fs, ids), next)
  {
    if fs != [] {
      var n := |fs| - 1;
      var before := KeptProfiles(fs[..n], ids);
      KeptProfilesGood(fs[..n], next, ids);
      KeptProfileMembers(fs[..n], ids);
      forall i | 0 <= i < |before| ensures before[i].id != fs[n].id {
        OtherProfile(fs, before[i]);
      }
    }
  }

  lemma DropProfilesKeeps(s: Store, ids: set<nat>)
    requires Inv(s)
    ensures Inv(s.(profiles := KeptProfiles(s.profiles, ids)))
  {
    var fs := KeptProfiles(s.profiles, ids);
    KeptProfilesGood(s.profiles, s.nextProfileID, ids);
    KeptProfileMembers(s.profiles, ids);
    forall k | 0 <= k < |fs| ensures SoundLink(fs[k], s.proxies, s.nextProxyID) {
      assert fs[k] in fs;
      var j :| 0 <= j < |s.profiles| && s.profiles[j] == fs[k];
    }
  }

  lemma DeleteProfilesKeeps(s: Store, ids: seq<nat>, now: int)
    requires Inv(s) && DoDeleteProfiles(s, ids, now).Ok?
    ensures Inv(DoDeleteProfiles(s, ids, now).store)
  {
    var removed := ProxiesOf(s.profiles, IdSet(ids));
    DropProfilesKeeps(s, IdSet(ids));
    FilterKeeps(s.(profiles := KeptProfiles(s.profiles, IdSet(ids))), NotIn(removed), removed, now);
  }

  // ---------- the runtime ----------

  lemma RuntimeProfilesKeep(s: Store, now: int)
    requires Inv(s)
    ensures Inv(s.(profiles := DisableIncompatible(Allocate(s.profiles), now)))
  {
    var fs := DisableIncompatible(Allocate(s.profiles), now);
    Allocation(s.profiles);
    forall k | 0 <= k < |fs| ensures SameLink(fs[k], s.profiles[k]) {
      assert fs[k] == Disabled(Allocate(s.profiles)[k], now);
    }
    ChangeProfilesKeeps(s, fs);
  }

  lemma SyncRuntimeKeeps(s: Store, now: int)
    requires Inv(s)
    ensures Inv(DoSyncRuntime(s, now))
  {
    RuntimeProfilesKeep(s, now);
    SyncKeeps(s.(profiles := DisableIncompatible(Allocate(s.profiles), now)), now);
  }

  /** The two proxies are not both managed, or have different ports. */
  predicate Apart(p: Proxy, q: Proxy) {
    ManagedByXray(p) && ManagedByXray(q) ==> p.port != q.port
  }

  ghost predicate AllApart(ps: seq<Proxy>) {
    forall i, j :: 0 <= i < j < |ps| ==> Apart(ps[i], ps[j])
  }

  lemma PortOf(t: Store, i: nat) returns (k: nat)
    requires Bijection(t) && i < |t.proxies| && ManagedByXray(t.proxies[i])
    ensures k < |t.profiles| && t.profiles[k].id == t.proxies[i].managedRefID
    ensures t.proxies[i].port == NormalProfile(t.profiles[k]).localPort
  {
    assert HasProfile(t.proxies[i], t.profiles);
    k :| 0 <= k < |t.profiles| && t.profiles[k].id == t.proxies[i].managedRefID;
    assert HasProxy(t.profiles[k], t.proxies);
    var j :| 0 <= j < |t.proxies| && Mirrors(t.proxies[j], t.profiles[k])
        && t.proxies[j].id == t.profiles[k].managedProxyID;
    assert ManagedByXray(t.proxies[j]);
    assert i == j;
  }

  /** Where profiles have their own ports, their managed proxies have too. */
  lemma PortsApart(t: Store)
    requires Bijection(t) && DistinctPorts(t.profiles) && forall k :: 0 <= k < |t.profiles| ==>
               t.profiles[k].localPort > 0
    ensures AllApart(t.proxies)
  {
    forall i, j | 0 <= i < j < |t.proxies| ensures Apart(t.proxies[i], t.proxies[j]) {
      if ManagedByXray(t.proxies[i]) && ManagedByXray(t.proxies[j]) {
        var k := PortOf(t, i);
        var m := PortOf(t, j);
        assert t.proxies[i].managedRefID != t.proxies[j].managedRefID;
      }
    }
  }

  /**
   What the core is started with: every profile has its own managed proxy on its own positive local
   port, so no two of them contend for a port.
   */
  lemma RuntimePorts(s: Store, now: int)
    requires Inv(s)
    ensures var t := DoSyncRuntime(s, now);
      Bijection(t) && AllApart(t.proxies) && forall k :: 0 <= k < |t.profiles| ==> t.profiles[k].localPort > 0
  {
    var u := s.(profiles := DisableIncompatible(Allocate(s.profiles), now));
    RuntimeProfilesKeep(s, now);
    RuntimeProfilesApart(s.profiles, now);
    SyncBijection(u, now);
    PortsApart(DoSyncRuntime(s, now));
  }

  lemma RuntimeProfilesApart(fs: seq<Profile>, now: int)
    requires DistinctIds(fs)
    ensures var r := DisableIncompatible(Allocate(fs), now);
      DistinctPorts(r) && forall k :: 0 <= k < |r| ==> r[k].localPort > 0
  {
    Allocation(fs);
    var a, r := Allocate(fs), DisableIncompatible(Allocate(fs), now);
    forall k | 0 <= k < |r| ensures r[k].localPort == a[k].localPort {
      assert r[k] == Disabled(a[k], now);
    }
  }

  // ---------- every run ----------

  lemma KeyOpKeeps(s: Store, op: Op, now: int)
    requires Inv(s) && Mutate(s, op, now).Ok?
    requires op.CreateKey? || op.ImportKeys? || op.UpdateKey? || op.DeleteKey? || op.BindKeys?
    ensures Inv(Mutate(s, op, now).store)
  {
    match op
    case CreateKey(request) => CreateKeyKeeps(s, request, now);
    case ImportKeys(lines) => ImportKeysKeeps(s, lines, now);
    case UpdateKey(id, edit) => UpdateKeyKeeps(s, id, edit, now);
    case DeleteKey(id) => DeleteKeyKeeps(s, id);
    case BindKeys(keyIDs, proxyID, group) => BindKeysKeeps(s, keyIDs, proxyID, group, now);
  }

  lemma ProxyOpKeeps(s: Store, op: Op, now: int)
    requires Inv(s) && Mutate(s, op, now).Ok?
    requires op.CreateProxy? || op.EditProxy? || op.DeleteProxy? || op.DeleteProxies? || op.UpsertFree? || op.Cleanup?
    ensures Inv(Mutate(s, op, now).store)
  {
    match op
    case CreateProxy(p) => AddProxyKeeps(s,
                                         p.(id := s.nextProxyID, source := Manual, managedBy := "", managedRefID := 0,
                                            updatedAt := now));
    case EditProxy(id, edit) => EditProxyKeeps(s, id, edit, now);
    case DeleteProxy(id) => DeleteProxyKeeps(s, id, now);
    case DeleteProxies(ids) => DeleteProxiesKeeps(s, ids, now);
    case UpsertFree(found, group) => UpsertKeeps(s, found, group, now);
    case Cleanup(options) => CleanupKeeps(s, options, now);
  }

  lemma ProfileOpKeeps(s: Store, op: Op, now: int)
    requires Inv(s) && Mutate(s, op, now).Ok?
    requires op.CreateProfile? || op.ImportProfiles? || op.EditProfile? || op.DeleteProfiles? || op.SyncRuntime?
    ensures Inv(Mutate(s, op, now).store)
  {
    match op
    case CreateProfile(profile) => CreateProfileKeeps(s, profile, now);
    case ImportProfiles(nodes) => ImportProfilesKeeps(s, nodes, now);
    case EditProfile(id, edit) => EditProfileKeeps(s, id, edit, now);
    case DeleteProfiles(ids) => DeleteProfilesKeeps(s, ids, now);
    case SyncRuntime => SyncRuntimeKeeps(s, now);
  }

  lemma NormalizedKeeps(s: Store)
    requires Inv(s)
    ensures Inv(Normalized(s))
  {
    forall k | 0 <= k < |s.profiles| ensures SameLink(Normal(s.profiles)[k], s.profiles[k]) {
      assert Normal(s.profiles)[k] == NormalProfile(s.profiles[k]);
    }
    ChangeProfilesKeeps(s, Normal(s.profiles));
  }

  /** One transaction keeps the invariant, whether it goes through or fails. */
  lemma CommitKeeps(s: Store, op: Op, now: int)
    requires Inv(s)
    ensures Inv(Commit(s, op, now))
  {
    if Mutate(s, op, now).Ok? {
      if op.CreateKey? || op.ImportKeys? || op.UpdateKey? || op.DeleteKey? || op.BindKeys? {
        KeyOpKeeps(s, op, now);
      } else if op.CreateProfile? || op.ImportProfiles? || op.EditProfile? || op.DeleteProfiles? || op.SyncRuntime? {
        ProfileOpKeeps(s, op, now);
      } else {
        ProxyOpKeeps(s, op, now);
      }
      NormalizedKeeps(Mutate(s, op, now).store);
    }
  }

  /**
   Over any sequence of changes, starting from the empty store: ids stay unique and below their
   counters, every key is unbound or bound to a stored proxy, and the links between profiles and
   managed proxies stay sound.
   */
  lemma {:induction false} RunKeeps(ops: seq<Timed>)
    ensures Inv(Run(EMPTY_STORE, ops))
  {
    if ops != [] {
      var last := ops[|ops| - 1];
      RunKeeps(ops[..|ops| - 1]);
      CommitKeeps(Run(EMPTY_STORE, ops[..|ops| - 1]), last.op, last.now);
    }
  }

  /** After any run, starting the core restores the bijection and gives every profile its own port. */
  lemma RunThenSync(ops: seq<Timed>, now: int)
    ensures var t := DoSyncRuntime(Run(EMPTY_STORE, ops), now);
      Bijection(t) && AllApart(t.proxies)
  {
    RunKeeps(ops);
    RuntimePorts(Run(EMPTY_STORE, ops), now);
  }
}
