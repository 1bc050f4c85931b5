/**
 The store as the object that mutators change in place, and the database that runs each of them
 on a copy and puts the copy in the place of the original only when the mutator succeeds.
 */
module GatewayStore {
  import opened Text
  import opened StoreData
  import opened CorePorts
  import opened CoreSync
  import opened StoreOps
  import Invariant = StoreInvariant
  import Grouping = ProxyGrouping

  /** What a mutator promises: the new store, or an error, and then no promise about the store. */
  ghost predicate Meets(outcome: Outcome, err: Option<Error>, after: Store) {
    match outcome
    case Ok(t) => err.None? && after == t
    case Err(e) => err == Some(e)
  }

  predicate SameProfileIds(fs: seq<Profile>, gs: seq<Profile>) {
    |fs| == |gs| && forall k :: 0 <= k < |fs| ==> gs[k].id == fs[k].id
  }

  class MutableStore {
    var apiKeys: seq<ApiKey>
    var proxies: seq<Proxy>
    var coreProfiles: seq<Profile>
    var nextAPIID: nat
    var nextProxyID: nat
    var nextCoreProfileID: nat

    function View(): Store
      reads this
    {
      Store(apiKeys, proxies, coreProfiles, nextAPIID, nextProxyID, nextCoreProfileID)
    }

    /** cloneStore */
    constructor (s: Store)
      ensures View() == s
    {
      apiKeys, proxies, coreProfiles := s.keys, s.proxies, s.profiles;
      nextAPIID, nextProxyID, nextCoreProfileID := s.nextKeyID, s.nextProxyID, s.nextProfileID;
    }

    // ---------- keys ----------

    method FindProxyID(proxyID: nat) returns (found: bool)
      ensures found == HasId(proxies, proxyID)
    {
      for i := 0 to |proxies|
        invariant forall j :: 0 <= j < i ==> proxies[j].id != proxyID
      {
        if proxies[i].id == proxyID {
          return true;
        }
      }
      return false;
    }

    /** validateAPIKeyProxyReference */
    method ValidateReference(proxyID: nat) returns (ok: bool)
      ensures ok == ValidReference(proxies, proxyID)
    {
      if proxyID == 0 {
        return true;
      }
      ok := FindProxyID(proxyID);
    }

    method AppendKey(name: string, secret: string, weight: real, probeOnly: bool, proxyID: nat, now: int)
      modifies this`apiKeys, this`nextAPIID
      ensures View() == WithKey(old(View()), name, secret, weight, probeOnly, proxyID, now)
    {
      apiKeys := apiKeys + [ApiKey(nextAPIID, name, secret, weight, KeyActive, probeOnly, proxyID, now)];
      nextAPIID := nextAPIID + 1;
    }

    method CreateKey(r: KeyRequest, now: int) returns (err: Option<Error>)
      modifies this
      ensures Meets(DoCreateKey(old(View()), r, now), err, View())
    {
      var name, secret := TrimSpace(r.name), TrimSpace(r.secret);
      if name == "" || secret == "" || r.weight <= 0.0 {
        return Some(Rejected);
      }
      var proxyID := 0;
      if r.proxy.Some? {
        var ok := ValidateReference(r.proxy.value);
        if !ok {
          return Some(NoSuchProxy);
        }
        proxyID := r.proxy.value;
      }
      AppendKey(name, secret, r.weight, r.probeOnly, proxyID, now);
      return None;
    }

    /** The bulk import: `existing` has the keys that are stored by now. */
    method ImportKeys(lines: seq<KeyLine>, now: int) returns (added: nat, skipped: nat)
      modifies this
      ensures View() == DoImportKeys(old(View()), lines, now)
      ensures added == |apiKeys| - |old(apiKeys)| && added + skipped == |lines|
    {
      var existing := set i | 0 <= i < |apiKeys| :: apiKeys[i].secret;
      added, skipped := 0, 0;
      for n := 0 to |lines|
        invariant View() == DoImportKeys(old(View()), lines[..n], now)
        invariant forall k :: k in existing <==> HasSecret(apiKeys, k)
        invariant added == |apiKeys| - |old(apiKeys)| && added + skipped == n
      {
        assert lines[..n + 1][..n] == lines[..n];
        var l := lines[n];
        if l.Unreadable? || l.secret in existing {
          skipped := skipped + 1;
          continue;
        }
        SecretAppended(View(), if l.name.Some? then l.name.value else DefaultKeyName(nextAPIID), l, now);
        AppendKey(if l.name.Some? then l.name.value else DefaultKeyName(nextAPIID), l.secret, l.weight, false, 0, now);
        existing := existing + {l.secret};
        added := added + 1;
      }
      assert lines[..|lines|] == lines;
    }

    method FindKey(id: nat) returns (i: nat, found: bool)
      ensures if found then FirstKey(apiKeys, id) == Some(i) && i < |apiKeys| else FirstKey(apiKeys, id) == None
    {
      found := false;
      for n := 0 to |apiKeys|
        invariant FirstKey(apiKeys[..n], id) == None
      {
        assert apiKeys[..n + 1][..n] == apiKeys[..n];
        if apiKeys[n].id == id {
          FirstKeyStays(apiKeys, id, n + 1);
          return n, true;
        }
      }
      assert apiKeys[..|apiKeys|] == apiKeys;
      i := 0;
    }

    /** mutateAPIKeyWithStore with the mutator of UpdateAPIKey: each field is checked and then taken over. */
    method UpdateKey(id: nat, e: KeyEdit, now: int) returns (err: Option<Error>)
      modifies this
      ensures Meets(DoUpdateKey(old(View()), id, e, now), err, View())
    {
      var i, found := FindKey(id);
      if !found {
        return Some(NotFound);
      }
      var key := apiKeys[i];
      if e.name.Some? {
        if TrimSpace(e.name.value) == "" {
          return Some(Rejected);
        }
        key := key.(name := TrimSpace(e.name.value));
      }
      if e.weight.Some? {
        if e.weight.value <= 0.0 {
          return Some(Rejected);
        }
        key := key.(weight := e.weight.value);
      }
      if TrimSpace(e.secret) != "" {
        key := key.(secret := TrimSpace(e.secret));
      }
      if e.probeOnly.Some? {
        key := key.(probeOnly := e.probeOnly.value);
      }
      if e.proxy.Some? {
        var ok := ValidateReference(e.proxy.value);
        if !ok {
          return Some(NoSuchProxy);
        }
        key := key.(proxyID := e.proxy.value);
      }
      apiKeys := apiKeys[i := key.(updatedAt := now)];
      return None;
    }

    method DeleteKey(id: nat) returns (err: Option<Error>)
      modifies this
      ensures Meets(DoDeleteKey(old(View()), id), err, View())
    {
      var i, found := FindKey(id);
      if !found {
        return Some(NotFound);
      }
      apiKeys := apiKeys[..i] + apiKeys[i + 1..];
      return None;
    }

    /** Unbinds the keys of removed proxies. */
    method UnbindKeys(removed: set<nat>, now: int) returns (count: nat)
      modifies this`apiKeys
      ensures apiKeys == Unbound(old(apiKeys), removed, now)
      ensures count == CountBound(old(apiKeys), removed)
    {
      count := 0;
      ghost var before := apiKeys;
      for i := 0 to |apiKeys|
        invariant |apiKeys| == |before|
        invariant forall j :: 0 <= j < |before| ==>
                    apiKeys[j] == if j < i then UnboundKey(before[j], removed, now) else before[j]
        invariant count == CountBound(before[..i], removed)
      {
        assert before[..i + 1][..i] == before[..i];
        if apiKeys[i].proxyID in removed {
          apiKeys := apiKeys[i := apiKeys[i].(proxyID := 0, updatedAt := now)];
          count := count + 1;
        }
      }
      assert before[..|before|] == before;
    }

    method RebindKeys(assignment: map<int, nat>, now: int)
      modifies this`apiKeys
      ensures apiKeys == Rebound(old(apiKeys), assignment, now)
    {
      ghost var before := apiKeys;
      for i := 0 to |apiKeys|
        invariant |apiKeys| == |before|
        invariant forall j :: 0 <= j < |before| ==>
                    apiKeys[j] == if j < i then ReboundKey(before[j], assignment, now) else before[j]
      {
        if apiKeys[i].id in assignment {
          apiKeys := apiKeys[i := apiKeys[i].(proxyID := assignment[apiKeys[i].id], updatedAt := now)];
        }
      }
    }

    /** applyBulkAPIKeyProxyBindingToStore */
    method BindKeys(keyIDs: seq<nat>, proxyID: nat, rawGroup: string, now: int) returns (err: Option<Error>)
      modifies this
      ensures Meets(DoBindKeys(old(View()), keyIDs, proxyID, rawGroup, now), err, View())
    {
      var ids := UniqueList(keyIDs);
      if |ids| == 0 {
        return None;
      }
      var group := TrimSpace(rawGroup);
      var assignment: map<int, nat>;
      if group != "" {
        var members := Grouping.SortedMembers(proxies, group);
        if |members| == 0 {
          return Some(NoSuchGroup);
        }
        assignment := Grouping.Assign(ids, members);
      } else {
        var ok := ValidateReference(proxyID);
        if !ok {
          return Some(NoSuchProxy);
        }
        assignment := SameForAll(ids, proxyID);
      }
      RebindKeys(assignment, now);
      return None;
    }

    // ---------- proxies ----------

    method CreateProxy(template: Proxy, now: int)
      modifies this
      ensures View() == DoCreateProxy(old(View()), template, now)
    {
      proxies := proxies + [template.(id := nextProxyID, source := Manual, managedBy := "", managedRefID := 0,
                                      updatedAt := now)];
      nextProxyID := nextProxyID + 1;
    }

    method FindProxy(id: nat) returns (i: nat, found: bool)
      ensures if found then FirstProxy(proxies, id) == Some(i) && i < |proxies| else FirstProxy(proxies, id) == None
    {
      found := false;
      for n := 0 to |proxies|
        invariant FirstProxy(proxies[..n], id) == None
      {
        assert proxies[..n + 1][..n] == proxies[..n];
        if proxies[n].id == id {
          FirstProxyStays(proxies, id, n + 1);
          return n, true;
        }
      }
      assert proxies[..|proxies|] == proxies;
      i := 0;
    }

    /** mutateProxy with the mutator of UpdateUpstreamProxy: it writes the fields before it validates them. */
    method EditProxy(id: nat, e: ProxyEdit, now: int) returns (err: Option<Error>)
      modifies this
      ensures Meets(DoEditProxy(old(View()), id, e, now), err, View())
    {
      var i, found := FindProxy(id);
      if !found {
        return Some(NotFound);
      }
      if TrimSpace(proxies[i].managedBy) != "" {
        return Some(ReadOnly);
      }
      proxies := proxies[i := EditedProxy(proxies[i], e)];
      if !e.valid(proxies[i]) {
        return Some(Rejected);
      }
      proxies := proxies[i := proxies[i].(updatedAt := now)];
      return None;
    }

    method DeleteProxy(id: nat, now: int) returns (err: Option<Error>)
      modifies this
      ensures Meets(DoDeleteProxy(old(View()), id, now), err, View())
    {
      var i, found := FindProxy(id);
      if !found {
        return Some(NotFound);
      }
      if TrimSpace(proxies[i].managedBy) != "" {
        return Some(ReadOnly);
      }
      proxies := proxies[..i] + proxies[i + 1..];
      var _ := UnbindKeys({id}, now);
      return None;
    }

    /** Selects the proxies that stay, unless a proxy to be deleted is managed. */
    method SelectKept(idSet: set<nat>) returns (kept: seq<Proxy>, deleted: nat, refused: bool)
      ensures refused <==> exists i :: 0 <= i < |proxies| && proxies[i].id in idSet && IsReadOnly(proxies[i])
      ensures !refused ==> kept == KeepIf(proxies, NotIn(idSet)) && deleted == |proxies| - |kept|
      ensures !refused ==> (deleted == 0 <==> forall i :: 0 <= i < |proxies| ==> proxies[i].id !in idSet)
    {
      kept, deleted, refused := [], 0, false;
      for i := 0 to |proxies|
        invariant kept == KeepIf(proxies[..i], NotIn(idSet)) && deleted == i - |kept|
        invariant forall j :: 0 <= j < i && proxies[j].id in idSet ==> !IsReadOnly(proxies[j])
        invariant deleted == 0 <==> forall j :: 0 <= j < i ==> proxies[j].id !in idSet
      {
        assert proxies[..i + 1][..i] == proxies[..i];
        if proxies[i].id in idSet {
          if TrimSpace(proxies[i].managedBy) != "" {
            return [], 0, true;
          }
          deleted := deleted + 1;
          continue;
        }
        kept := kept + [proxies[i]];
      }
      assert proxies[..|proxies|] == proxies;
    }

    /** deleteManualUpstreamProxiesByIDs; it may have unbound keys when it reports that there was nothing to delete. */
    method DeleteProxies(ids: seq<nat>, now: int) returns (err: Option<Error>, deleted: nat, unbound: nat)
      modifies this
      ensures Meets(DoDeleteProxies(old(View()), ids, now), err, View())
      ensures err.None? ==> deleted == |old(proxies)| - |proxies| > 0 && unbound == CountBound(old(apiKeys), IdSet(ids))
    {
      var idSet := IdSet(ids);
      if idSet == {} {
        return Some(Rejected), 0, 0;
      }
      var kept, count, refused := SelectKept(idSet);
      if refused {
        return Some(ReadOnly), 0, 0;
      }
      proxies := kept;
      deleted := count;
      unbound := UnbindKeys(idSet, now);
      if deleted == 0 {
        return Some(NotFound), 0, unbound;
      }
      return None, deleted, unbound;
    }

    // ---------- core profiles ----------

    method CreateProfile(f: Profile, now: int)
      modifies this
      ensures View() == DoCreateProfile(old(View()), f, now)
    {
      coreProfiles := coreProfiles + [f.(id := nextCoreProfileID, managedProxyID := 0, updatedAt := now)];
      nextCoreProfileID := nextCoreProfileID + 1;
    }

    /** normalizeAndAllocateCoreProfiles for the profiles of the store. */
    method AllocatePorts()
      modifies this`coreProfiles
      ensures coreProfiles == Allocate(old(coreProfiles))
    {
      ghost var fs := coreProfiles;
      var items := new Profile[|coreProfiles|](i requires 0 <= i < |coreProfiles| reads this => coreProfiles[i]);
      assert items[..] == fs;
      AllocateInPlace(items);
      coreProfiles := items[..];
    }

    /** The bulk import of core profiles. */
    method ImportProfiles(nodes: seq<NodeLine>, now: int) returns (imported: nat, skipped: nat)
      modifies this
      ensures View() == DoImportProfiles(old(View()), nodes, now)
      ensures imported == |coreProfiles| - |old(coreProfiles)| && imported + skipped == |nodes|
    {
      AllocatePorts();
      ghost var start := ImportStart(old(View()));
      var existing := set i | 0 <= i < |coreProfiles| :: coreProfiles[i].endpoint;
      imported, skipped := 0, 0;
      for n := 0 to |nodes|
        invariant Importing(View(), existing) == ImportNodes(start, nodes[..n], now)
        invariant imported == |coreProfiles| - |old(coreProfiles)| && imported + skipped == n
      {
        assert nodes[..n + 1][..n] == nodes[..n];
        var l := nodes[n];
        if l.endpoint in existing || l.profile.None? {
          skipped := skipped + 1;
          continue;
        }
        CreateProfile(l.profile.value, now);
        existing := existing + {l.endpoint};
        imported := imported + 1;
      }
      assert nodes[..|nodes|] == nodes;
    }

    method FindProfile(id: nat) returns (i: nat, found: bool)
      ensures if found then FirstProfile(coreProfiles, id) == Some(i) && i < |coreProfiles|
              else FirstProfile(coreProfiles, id) == None
    {
      found := false;
      for n := 0 to |coreProfiles|
        invariant FirstProfile(coreProfiles[..n], id) == None
      {
        assert coreProfiles[..n + 1][..n] == coreProfiles[..n];
        if coreProfiles[n].id == id {
          FirstProfileStays(coreProfiles, id, n + 1);
          return n, true;
        }
      }
      assert coreProfiles[..|coreProfiles|] == coreProfiles;
      i := 0;
    }

    /** mutateCoreProfile with the mutator of UpdateCoreProfile. */
    method EditProfile(id: nat, e: ProfileEdit, now: int) returns (err: Option<Error>)
      modifies this
      ensures Meets(DoEditProfile(old(View()), id, e, now), err, View())
    {
      var i, found := FindProfile(id);
      if !found {
        return Some(NotFound);
      }
      var working := EditedProfile(coreProfiles[i], e);
      if !e.valid(working) {
        return Some(Rejected);
      }
      coreProfiles := coreProfiles[i := working.(updatedAt := now)];
      return None;
    }

    method KeepProxies(removed: set<nat>) returns (deleted: nat)
      modifies this`proxies
      ensures proxies == KeepIf(old(proxies), NotIn(removed))
      ensures deleted == |old(proxies)| - |proxies|
    {
      var kept := [];
      deleted := 0;
      for i := 0 to |proxies|
        invariant kept == KeepIf(proxies[..i], NotIn(removed)) && deleted == i - |kept|
      {
        assert proxies[..i + 1][..i] == proxies[..i];
        if proxies[i].id in removed {
          deleted := deleted + 1;
          continue;
        }
        kept := kept + [proxies[i]];
      }
      assert proxies[..|proxies|] == proxies;
      proxies := kept;
    }

    /** Selects the profiles that stay, and the proxies of those that go. */
    method SelectProfiles(idSet: set<nat>) returns (kept: seq<Profile>, removed: set<nat>, deleted: nat)
      ensures kept == KeptProfiles(coreProfiles, idSet) && removed == ProxiesOf(coreProfiles, idSet)
      ensures deleted == |coreProfiles| - |kept|
      ensures deleted == 0 <==> forall i :: 0 <= i < |coreProfiles| ==> coreProfiles[i].id !in idSet
    {
      kept, removed, deleted := [], {}, 0;
      for i := 0 to |coreProfiles|
        invariant kept == KeptProfiles(coreProfiles[..i], idSet) && removed == ProxiesOf(coreProfiles[..i], idSet)
        invariant deleted == i - |kept|
        invariant deleted == 0 <==> forall j :: 0 <= j < i ==> coreProfiles[j].id !in idSet
      {
        assert coreProfiles[..i + 1][..i] == coreProfiles[..i];
        var f := coreProfiles[i];
        if f.id !in idSet {
          kept := kept + [f];
          continue;
        }
        deleted := deleted + 1;
        if f.managedProxyID > 0 {
          removed := removed + {f.managedProxyID};
        }
      }
      assert coreProfiles[..|coreProfiles|] == coreProfiles;
    }

    /** deleteCoreProfilesByIDs */
    method DeleteProfiles(ids: seq<nat>, now: int)
      returns (err: Option<Error>, deleted: nat, deletedProxies: nat, unbound: nat)
      modifies this
      ensures Meets(DoDeleteProfiles(old(View()), ids, now), err, View())
      ensures err.None? ==>
                && deleted == |old(coreProfiles)| - |coreProfiles| > 0
                && deletedProxies == |old(proxies)| - |proxies|
                && unbound == CountBound(old(apiKeys), ProxiesOf(old(coreProfiles), IdSet(ids)))
    {
      var idSet := IdSet(ids);
      if idSet == {} {
        return Some(NotFound), 0, 0, 0;
      }
      var kept, removed, count := SelectProfiles(idSet);
      if count == 0 {
        return Some(NotFound), 0, 0, 0;
      }
      deleted := count;
      coreProfiles := kept;
      deletedProxies := KeepProxies(removed);
      unbound := UnbindKeys(removed, now);
      return None, deleted, deletedProxies, unbound;
    }

    // ---------- freely available proxies ----------

    method FindEndpoint(f: Found) returns (i: nat, found: bool)
      ensures if found then FirstEndpoint(proxies, f) == Some(i) && i < |proxies| else FirstEndpoint(proxies, f) == None
    {
      found := false;
      for n := 0 to |proxies|
        invariant FirstEndpoint(proxies[..n], f) == None
      {
        assert proxies[..n + 1][..n] == proxies[..n];
        if SameEndpoint(proxies[n], f) {
          FirstEndpointStays(proxies, f, n + 1);
          return n, true;
        }
      }
      assert proxies[..|proxies|] == proxies;
      i := 0;
    }

    /** upsertImportedFreeProxy */
    method UpsertFree(f: Found, defaultGroup: string, now: int) returns (kind: Import)
      modifies this
      ensures View() == DoUpsert(old(View()), f, defaultGroup, now)
      ensures kind == ImportOf(old(View()), f)
      ensures |proxies| == |old(proxies)| + (if kind.IsNew? then 1 else 0)
    {
      var i, found := FindEndpoint(f);
      if !found {
        proxies := proxies + [Imported(nextProxyID, f, defaultGroup, now)];
        nextProxyID := nextProxyID + 1;
        return IsNew;
      }
      kind := MatchesManual;
      var p := proxies[i].(lastTest := Some(f.record), history := MergedHistory(proxies[i].history, f.record),
                           updatedAt := now);
      if p.source.Auto? {
        p := p.(enabled := f.success);
        if !Blank(f.country) {
          p := p.(country := f.country);
        }
        if Blank(p.group) {
          p := p.(group := defaultGroup);
        }
        p := p.(name := AutoName(f));
        kind := IsUpdate;
      }
      proxies := proxies[i := p];
    }

    /** cleanupImportedAutoProxies */
    method Cleanup(o: CleanupOptions, now: int) returns (deleted: nat, failed: nat, slow: nat, unbound: nat)
      modifies this
      ensures View() == DoCleanup(old(View()), o, now)
      ensures deleted == failed + slow == |old(proxies)| - |proxies|
      ensures o.enabled ==> failed == CountFailed(o, old(proxies)) && slow == CountSlow(o, old(proxies))
      ensures unbound == if o.enabled then CountBound(old(apiKeys), DroppedIds(old(proxies), Keeping(o))) else 0
    {
      deleted, failed, slow, unbound := 0, 0, 0, 0;
      if !o.enabled {
        return;
      }
      var removed: set<nat> := {};
      var kept := [];
      for i := 0 to |proxies|
        invariant kept == KeepIf(proxies[..i], Keeping(o)) && removed == DroppedIds(proxies[..i], Keeping(o))
        invariant deleted == failed + slow == i - |kept|
        invariant failed == CountFailed(o, proxies[..i]) && slow == CountSlow(o, proxies[..i])
      {
        assert proxies[..i + 1][..i] == proxies[..i];
        if !HasFailed(o, proxies[i]) && !IsSlow(o, proxies[i]) {
          kept := kept + [proxies[i]];
          continue;
        }
        removed := removed + {proxies[i].id};
        deleted := deleted + 1;
        if HasFailed(o, proxies[i]) {
          failed := failed + 1;
        }
        if IsSlow(o, proxies[i]) {
          slow := slow + 1;
        }
      }
      assert proxies[..|proxies|] == proxies;
      if removed == {} {
        NoneDropped(proxies, Keeping(o));
        NoneBound(apiKeys);
        assert Unbound(apiKeys, {}, now) == apiKeys;
        return;
      }
      proxies := kept;
      unbound := UnbindKeys(removed, now);
    }

    // ---------- the runtime ----------

    /** The two indices that the synchronization looks proxies up in. */
    method IndexProxies() returns (byID: map<nat, nat>, byProfile: map<nat, nat>)
      ensures IdIndex(byID, proxies) && ProfileIndex(byProfile, proxies)
    {
      byID, byProfile := map[], map[];
      for i := 0 to |proxies|
        invariant IdIndex(byID, proxies[..i]) && ProfileIndex(byProfile, proxies[..i])
      {
        assert proxies[..i + 1][..i] == proxies[..i];
        byID := byID[proxies[i].id := i];
        if ManagedByXray(proxies[i]) && proxies[i].managedRefID > 0 {
          byProfile := byProfile[proxies[i].managedRefID := i];
        }
      }
      assert proxies[..|proxies|] == proxies;
    }

    /** Gives the i-th profile its proxy. */
    method AdoptProxy(i: nat, now: int, byID: map<nat, nat>, byProfile: map<nat, nat>, ghost orig: seq<Proxy>)
      requires i < |coreProfiles| && |orig| <= |proxies| && IdIndex(byID, orig) && ProfileIndex(byProfile, orig)
      modifies this`proxies, this`coreProfiles, this`nextProxyID
      ensures |old(proxies)| <= |proxies| && SameProfileIds(old(coreProfiles), coreProfiles)
      ensures Adopting(proxies, coreProfiles, nextProxyID) ==
              AdoptOne(orig, Adopting(old(proxies), old(coreProfiles), old(nextProxyID)), i, now)
    {
      var profile := NormalProfile(coreProfiles[i]);
      IndexByIdMeaning(orig, profile.managedProxyID);
      var proxyIdx := -1;
      if profile.managedProxyID > 0 && profile.managedProxyID in byID {
        proxyIdx := byID[profile.managedProxyID];
      }
      if proxyIdx == -1 && profile.id in byProfile {
        proxyIdx := byProfile[profile.id];
        ProfileIndexInRange(orig, profile.id);
      }
      if proxyIdx == -1 {
        proxies := proxies + [NewManaged(nextProxyID, profile, now)];
        nextProxyID := nextProxyID + 1;
        proxyIdx := |proxies| - 1;
      }
      proxies := proxies[proxyIdx := Mirror(proxies[proxyIdx], profile, now)];
      coreProfiles := coreProfiles[i := coreProfiles[i].(managedProxyID := proxies[proxyIdx].id)];
    }

    method RemoveOrphans(active: set<nat>, now: int)
      modifies this`proxies, this`apiKeys
      ensures proxies == WithoutOrphans(old(proxies), active)
      ensures apiKeys == Unbound(old(apiKeys), OrphanIds(old(proxies), active), now)
    {
      var removed: set<nat> := {};
      var filtered := [];
      for i := 0 to |proxies|
        invariant filtered == WithoutOrphans(proxies[..i], active) && removed == OrphanIds(proxies[..i], active)
      {
        assert proxies[..i + 1][..i] == proxies[..i];
        if ManagedByXray(proxies[i]) && proxies[i].managedRefID !in active {
          removed := removed + {proxies[i].id};
          continue;
        }
        filtered := filtered + [proxies[i]];
      }
      assert proxies[..|proxies|] == proxies;
      if removed == {} {
        NoneOrphaned(proxies, active);
        assert Unbound(apiKeys, {}, now) == apiKeys;
        return;
      }
      var _ := UnbindKeys(removed, now);
      proxies := filtered;
    }

    method CountManagedProxies() returns (count: nat)
      ensures count == CountManaged(proxies)
    {
      count := 0;
      for i := 0 to |proxies|
        invariant count == CountManaged(proxies[..i])
      {
        assert proxies[..i + 1][..i] == proxies[..i];
        if ManagedByXray(proxies[i]) {
          count := count + 1;
        }
      }
      assert proxies[..|proxies|] == proxies;
    }

    /** syncManagedCoreProxies */
    method SyncManaged(now: int) returns (count: nat)
      modifies this
      ensures View() == Sync(old(View()), now) && count == CountManaged(proxies)
    {
      var byID, byProfile := IndexProxies();
      var active := AdoptProxies(now, byID, byProfile);
      RemoveOrphans(active, now);
      count := CountManagedProxies();
    }

    /** Gives every profile its proxy. */
    method AdoptProxies(now: int, byID: map<nat, nat>, byProfile: map<nat, nat>) returns (active: set<nat>)
      requires IdIndex(byID, proxies) && ProfileIndex(byProfile, proxies)
      modifies this`proxies, this`coreProfiles, this`nextProxyID
      ensures Adopting(proxies, coreProfiles, nextProxyID) ==
              Adopt(old(proxies), old(coreProfiles), old(nextProxyID), now, |old(coreProfiles)|)
      ensures active == ProfileIds(old(coreProfiles))
    {
      ghost var orig, fs, next := proxies, coreProfiles, nextProxyID;
      active := {};
      for i := 0 to |coreProfiles|
        invariant |orig| <= |proxies| && SameProfileIds(fs, coreProfiles)
        invariant Adopting(proxies, coreProfiles, nextProxyID) == Adopt(orig, fs, next, now, i)
        invariant active == ProfileIds(fs[..i])
      {
        assert fs[..i + 1][..i] == fs[..i];
        active := active + {coreProfiles[i].id};
        AdoptProxy(i, now, byID, byProfile, orig);
      }
      assert fs[..|fs|] == fs;
    }

    method DisableIncompatibleProfiles(now: int)
      modifies this`coreProfiles
      ensures coreProfiles == DisableIncompatible(old(coreProfiles), now)
    {
      ghost var before := coreProfiles;
      for i := 0 to |coreProfiles|
        invariant |coreProfiles| == |before|
        invariant forall j :: 0 <= j < |before| ==>
                    coreProfiles[j] == if j < i then Disabled(before[j], now) else before[j]
      {
        var f := NormalProfile(coreProfiles[i]);
        if !f.supported && f.enabled {
          f := f.(enabled := false, updatedAt := now);
        }
        coreProfiles := coreProfiles[i := f];
      }
    }

    /** The mutator of syncCoreProfilesForRuntime. */
    method SyncRuntime(now: int) returns (count: nat)
      modifies this
      ensures View() == DoSyncRuntime(old(View()), now) && count == CountManaged(proxies)
    {
      AllocatePorts();
      DisableIncompatibleProfiles(now);
      count := SyncManaged(now);
    }

    // ---------- normalization ----------

    method NormalizeProfiles()
      modifies this`coreProfiles
      ensures coreProfiles == Normal(old(coreProfiles))
    {
      ghost var before := coreProfiles;
      for i := 0 to |coreProfiles|
        invariant |coreProfiles| == |before|
        invariant forall j :: 0 <= j < |before| ==>
                    coreProfiles[j] == if j < i then NormalProfile(before[j]) else before[j]
      {
        coreProfiles := coreProfiles[i := NormalProfile(coreProfiles[i])];
      }
    }

    /** normalizeStore */
    method Normalize()
      modifies this
      ensures View() == Normalized(old(View()))
    {
      ghost var fs := coreProfiles;
      NormalizeProfiles();
      SameMaximum(fs);
      if nextAPIID == 0 {
        nextAPIID := MaxKeyId(apiKeys) + 1;
      }
      if nextProxyID == 0 {
        nextProxyID := MaxProxyId(proxies) + 1;
      }
      if nextCoreProfileID == 0 {
        nextCoreProfileID := MaxProfileId(coreProfiles) + 1;
      }
    }

    /** Any of the mutators. */
    method Mutate(op: Op, now: int) returns (err: Option<Error>)
      modifies this
      ensures Meets(StoreOps.Mutate(old(View()), op, now), err, View())
    {
      err := None;
      match op
      case CreateKey(request) => err := CreateKey(request, now);
      case ImportKeys(lines) => var _, _ := ImportKeys(lines, now);
      case UpdateKey(id, edit) => err := UpdateKey(id, edit, now);
      case DeleteKey(id) => err := DeleteKey(id);
      case BindKeys(keyIDs, proxyID, group) => err := BindKeys(keyIDs, proxyID, group, now);
      case CreateProxy(template) => CreateProxy(template, now);
      case EditProxy(id, edit) => err := EditProxy(id, edit, now);
      case DeleteProxy(id) => err := DeleteProxy(id, now);
      case DeleteProxies(ids) => var e, _, _ := DeleteProxies(ids, now); err := e;
      case CreateProfile(profile) => CreateProfile(profile, now);
      case ImportProfiles(nodes) => var _, _ := ImportProfiles(nodes, now);
      case EditProfile(id, edit) => err := EditProfile(id, edit, now);
      case DeleteProfiles(ids) => var e, _, _, _ := DeleteProfiles(ids, now); err := e;
      case UpsertFree(found, group) => var _ := UpsertFree(found, group, now);
      case Cleanup(options) => var _, _, _, _ := Cleanup(options, now);
      case SyncRuntime => var _ := SyncRuntime(now);
    }
  }

  /** The database: a cached store that only whole transactions replace. */
  class Database {
    var cached: Store

    constructor (s: Store)
      ensures cached == s
    {
      cached := s;
    }

    /**
     UpdateStore: the mutator works on a copy; if it reports an error the cached store is as it was,
     otherwise it is the mutated copy, normalized.  Either way the store keeps its invariant.
     */
    method UpdateStore(op: Op, now: int) returns (err: Option<Error>)
      modifies this
      ensures cached == Commit(old(cached), op, now)
      ensures err.Some? ==> cached == old(cached)
      ensures Inv(old(cached)) ==> Inv(cached)
    {
      if Inv(cached) {
        Invariant.CommitKeeps(cached, op, now);
      }
      var store := new MutableStore(cached);
      err := store.Mutate(op, now);
      if err.Some? {
        return;
      }
      store.Normalize();
      cached := store.View();
    }
  }

  // ---------- helper lemmas ----------

  lemma SecretAppended(s: Store, name: string, l: KeyLine, now: int)
    requires l.KeyLine?
    ensures var t := WithKey(s, name, l.secret, l.weight, false, 0, now);
      forall k :: HasSecret(t.keys, k) <==> HasSecret(s.keys, k) || k == l.secret
  {
    var t := WithKey(s, name, l.secret, l.weight, false, 0, now);
    forall k ensures HasSecret(t.keys, k) <==> HasSecret(s.keys, k) || k == l.secret {
      if HasSecret(s.keys, k) {
        var i :| 0 <= i < |s.keys| && s.keys[i].secret == k;
        assert t.keys[i].secret == k;
      }
      assert t.keys[|s.keys|].secret == l.secret;
    }
  }

  lemma {:induction false} NoneBound(keys: seq<ApiKey>)
    ensures CountBound(keys, {}) == 0
  {
    if keys != [] {
      NoneBound(keys[..|keys| - 1]);
    }
  }

  ghost predicate IdIndex(m: map<nat, nat>, ps: seq<Proxy>) {
    forall id :: id in m <==> IndexedAs(m, ps, id)
  }

  ghost predicate IndexedAs(m: map<nat, nat>, ps: seq<Proxy>, id: nat) {
    IndexById(ps, id).Some? && (id in m ==> m[id] == IndexById(ps, id).value)
  }

  ghost predicate ProfileIndex(m: map<nat, nat>, ps: seq<Proxy>) {
    forall id :: id in m <==> ProfileIndexedAs(m, ps, id)
  }

  ghost predicate ProfileIndexedAs(m: map<nat, nat>, ps: seq<Proxy>, id: nat) {
    IndexByProfile(ps, id).Some? && (id in m ==> m[id] == IndexByProfile(ps, id).value)
  }

  lemma {:induction false} ProfileIndexInRange(ps: seq<Proxy>, id: nat)
    ensures IndexByProfile(ps, id).Some? ==> IndexByProfile(ps, id).value < |ps|
  {
    if ps != [] {
      ProfileIndexInRange(ps[..|ps| - 1], id);
    }
  }

  lemma {:induction false} NoneOrphaned(ps: seq<Proxy>, active: set<nat>)
    requires OrphanIds(ps, active) == {}
    ensures WithoutOrphans(ps, active) == ps
  {
    if ps != [] {
      NoneOrphaned(ps[..|ps| - 1], active);
    }
  }

  lemma {:induction false} NoneDropped(ps: seq<Proxy>, keep: Proxy -> bool)
    requires DroppedIds(ps, keep) == {}
    ensures KeepIf(ps, keep) == ps
  {
    if ps != [] {
      NoneDropped(ps[..|ps| - 1], keep);
    }
  }

  lemma {:induction false} SameMaximum(fs: seq<Profile>)
    ensures MaxProfileId(Normal(fs)) == MaxProfileId(fs)
  {
    if fs != [] {
      var n := |fs| - 1;
      assert Normal(fs)[..n] == Normal(fs[..n]);
      SameMaximum(fs[..n]);
    }
  }

  lemma {:induction false} FirstEndpointStays(ps: seq<Proxy>, f: Found, n: nat)
    requires n <= |ps| && FirstEndpoint(ps[..n], f).Some?
    ensures FirstEndpoint(ps, f) == FirstEndpoint(ps[..n], f)
  {
    if n < |ps| {
      assert ps[..|ps| - 1][..n] == ps[..n];
      FirstEndpointStays(ps[..|ps| - 1], f, n);
    } else {
      assert ps[..n] == ps;
    }
  }

  lemma {:induction false} FirstKeyStays(keys: seq<ApiKey>, id: nat, n: nat)
    requires n <= |keys| && FirstKey(keys[..n], id).Some?
    ensures FirstKey(keys, id) == FirstKey(keys[..n], id)
  {
    if n < |keys| {
      assert keys[..|keys| - 1][..n] == keys[..n];
      FirstKeyStays(keys[..|keys| - 1], id, n);
    } else {
      assert keys[..n] == keys;
    }
  }

  lemma {:induction false} FirstProxyStays(ps: seq<Proxy>, id: nat, n: nat)
    requires n <= |ps| && FirstProxy(ps[..n], id).Some?
    ensures FirstProxy(ps, id) == FirstProxy(ps[..n], id)
  {
    if n < |ps| {
      assert ps[..|ps| - 1][..n] == ps[..n];
      FirstProxyStays(ps[..|ps| - 1], id, n);
    } else {
      assert ps[..n] == ps;
    }
  }

  lemma {:induction false} FirstProfileStays(fs: seq<Profile>, id: nat, n: nat)
    requires n <= |fs| && FirstProfile(fs[..n], id).Some?
    ensures FirstProfile(fs, id) == FirstProfile(fs[..n], id)
  {
    if n < |fs| {
      assert fs[..|fs| - 1][..n] == fs[..n];
      FirstProfileStays(fs[..|fs| - 1], id, n);
    } else {
      assert fs[..n] == fs;
    }
  }
}
