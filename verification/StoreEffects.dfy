/**
 What each change does to the store, record by record: when it is refused and why, what becomes of
 every stored key, proxy and profile, and which records are new.  Both bulk imports, the start of the
 core and the distribution of keys over a group have their own lemmas elsewhere.
 */
module StoreEffects {
  import opened Text
  import opened StoreData
  import opened CorePorts
  import opened StoreOps
  import opened StoreInvariant
  import Grouping = ProxyGrouping

  // ---------- refusals ----------

  ghost predicate KeyStored(s: Store, id: nat) {
    exists i :: 0 <= i < |s.keys| && s.keys[i].id == id
  }

  ghost predicate ProxyStored(s: Store, id: nat) {
    exists i :: 0 <= i < |s.proxies| && s.proxies[i].id == id
  }

  ghost predicate ProfileStored(s: Store, id: nat) {
    exists i :: 0 <= i < |s.profiles| && s.profiles[i].id == id
  }

  ghost predicate Refers(s: Store, proxy: Option<nat>) {
    proxy == None || proxy == Some(0) || ProxyStored(s, proxy.value)
  }

  ghost predicate ManagedStored(s: Store, ids: seq<nat>) {
    exists i :: 0 <= i < |s.proxies| && s.proxies[i].id in ids && s.proxies[i].managedBy == "xray"
  }

  ghost predicate AnyProxyStored(s: Store, ids: seq<nat>) {
    exists i :: 0 <= i < |s.proxies| && s.proxies[i].id in ids
  }

  ghost predicate AnyProfileStored(s: Store, ids: seq<nat>) {
    exists i :: 0 <= i < |s.profiles| && s.profiles[i].id in ids
  }

  ghost predicate OnlyZeros(ids: seq<nat>) {
    forall i :: 0 <= i < |ids| ==> ids[i] == 0
  }

  ghost predicate GroupIsEmpty(s: Store, group: string) {
    forall i :: 0 <= i < |s.proxies| ==> !Grouping.MemberOf(s.proxies[i], group)
  }

  /** Why a change of keys is refused, if it is. */
  ghost function KeyRefusal(s: Store, op: Op): Option<Error> {
    match op
    case CreateKey(r) =>
      if TrimSpace(r.name) == "" || TrimSpace(r.secret) == "" || r.weight <= 0.0 then Some(Rejected)
      else if !Refers(s, r.proxy) then Some(NoSuchProxy) else None
    case UpdateKey(id, e) =>
      if !KeyStored(s, id) then Some(NotFound)
      else if (e.name.Some? && TrimSpace(e.name.value) == "") || (e.weight.Some? && e.weight.value <= 0.0)
      then Some(Rejected)
      else if !Refers(s, e.proxy) then Some(NoSuchProxy) else None
    case DeleteKey(id) => if !KeyStored(s, id) then Some(NotFound) else None
    case BindKeys(ids, proxyID, group) =>
      if OnlyZeros(ids) then None
      else if TrimSpace(group) != "" then if GroupIsEmpty(s, TrimSpace(group)) then Some(NoSuchGroup) else None
      else if !Refers(s, Some(proxyID)) then Some(NoSuchProxy) else None
    case _ => None
  }

  /** Why a change of proxies or profiles is refused, if it is. */
  ghost function Refusal(s: Store, op: Op): Option<Error> {
    match op
    case EditProxy(id, e) =>
      if !ProxyStored(s, id) then Some(NotFound)
      else if ManagedStored(s, [id]) then Some(ReadOnly)
      else if exists i :: 0 <= i < |s.proxies| && s.proxies[i].id == id && !e.valid(WithEdit(s.proxies[i], e))
      then Some(Rejected) else None
    case DeleteProxy(id) =>
      if !ProxyStored(s, id) then Some(NotFound) else if ManagedStored(s, [id]) then Some(ReadOnly) else None
    case DeleteProxies(ids) =>
      if OnlyZeros(ids) then Some(Rejected)
      else if ManagedStored(s, ids) then Some(ReadOnly)
      else if !AnyProxyStored(s, ids) then Some(NotFound) else None
    case EditProfile(id, e) =>
      if !ProfileStored(s, id) then Some(NotFound)
      else if exists i :: 0 <= i < |s.profiles| && s.profiles[i].id == id && !e.valid(WithProfileEdit(s.profiles[i], e))
      then Some(Rejected) else None
    case DeleteProfiles(ids) => if !AnyProfileStored(s, ids) then Some(NotFound) else None
    case _ => KeyRefusal(s, op)
  }

  function WithEdit(p: Proxy, e: ProxyEdit): Proxy {
    Proxy(p.id, e.name, e.group, p.country, p.source, p.managedBy, p.managedRefID, e.kind, e.enabled, e.host, e.port,
          p.lastTest, p.history, p.updatedAt)
  }

  function WithProfileEdit(f: Profile, e: ProfileEdit): Profile {
    Profile(f.id, e.name, e.endpoint, e.enabled, e.localPort, f.managedProxyID, e.supported, f.updatedAt)
  }

  // ---------- what becomes of the stored records ----------

  /** An automatic proxy that a cleanup takes away. */
  predicate Stale(o: CleanupOptions, p: Proxy) {
    && o.enabled && p.source == Auto
    && match p.lastTest
       case None => o.deleteFailed
       case Some(test) => if test.success then 0 < o.maxLatency < test.responseTime else o.deleteFailed
  }

  /** The proxies that a change takes away. */
  ghost predicate Goes(s: Store, op: Op, p: Proxy) {
    match op
    case DeleteProxy(id) => p.id == id
    case DeleteProxies(ids) => p.id in ids
    case DeleteProfiles(ids) =>
      exists i :: 0 <= i < |s.profiles| && s.profiles[i].id in ids && s.profiles[i].managedProxyID == p.id
    case Cleanup(o) => Stale(o, p)
    case _ => false
  }

  ghost predicate LosesProxy(s: Store, op: Op, k: ApiKey) {
    exists i :: 0 <= i < |s.proxies| && Goes(s, op, s.proxies[i]) && s.proxies[i].id == k.proxyID
  }

  /** A key afterwards: it keeps whatever the change does not mention. */
  ghost function KeyFate(s: Store, op: Op, now: int, k: ApiKey): Option<ApiKey> {
    match op
    case DeleteKey(id) => if k.id == id then None else Some(k)
    case UpdateKey(id, e) =>
      if k.id != id then Some(k)
      else
        var name := match e.name case Some(text) => TrimSpace(text) case None => k.name;
        var secret := if TrimSpace(e.secret) == "" then k.secret else TrimSpace(e.secret);
        var weight := match e.weight case Some(w) => w case None => k.weight;
        var probeOnly := match e.probeOnly case Some(b) => b case None => k.probeOnly;
        var proxyID := match e.proxy case Some(p) => p case None => k.proxyID;
        Some(ApiKey(k.id, name, secret, weight, k.status, probeOnly, proxyID, now))
    case BindKeys(ids, proxyID, group) =>
      if k.id in ids then Some(k.(proxyID := proxyID, updatedAt := now)) else Some(k)
    case _ => if LosesProxy(s, op, k) then Some(k.(proxyID := 0, updatedAt := now)) else Some(k)
  }

  ghost predicate Meets(p: Proxy, f: Found) {
    && p.kind == f.kind && p.port == f.port
    && Grouping.Lower(TrimSpace(p.host)) == Grouping.Lower(TrimSpace(f.host))
  }

  /** The first stored proxy at the place where a free one was found. */
  ghost predicate FirstMet(s: Store, f: Found, p: Proxy) {
    exists i :: 0 <= i < |s.proxies| && s.proxies[i] == p && Meets(p, f) &&
                forall j :: 0 <= j < i ==> !Meets(s.proxies[j], f)
  }

  function FoundName(f: Found): string {
    if f.kind == "socks5h" then "AUTO socks5://" + f.host + ":" + Decimal(f.port)
    else "AUTO " + f.kind + "://" + f.host + ":" + Decimal(f.port)
  }

  /** The last ten tests, the newest first. */
  function LastTen(record: TestRecord, history: seq<TestRecord>): seq<TestRecord> {
    [record] + (if |history| > 9 then history[..9] else history)
  }

  ghost function ProxyFate(s: Store, op: Op, now: int, p: Proxy): Option<Proxy> {
    match op
    case EditProxy(id, e) => Some(if p.id == id then WithEdit(p, e).(updatedAt := now) else p)
    case UpsertFree(f, group) =>
      if !FirstMet(s, f, p) then Some(p)
      else
        var tested := p.(lastTest := Some(f.record), history := LastTen(f.record, p.history), updatedAt := now);
        Some(if p.source != Auto then tested
             else tested.(name := FoundName(f), enabled := f.success,
                          country := if TrimSpace(f.country) == "" then p.country else f.country,
                          group := if TrimSpace(p.group) == "" then group else p.group))
    case _ => if Goes(s, op, p) then None else Some(p)
  }

  function Clipped(port: int): int {
    if port < 0 then 0 else port
  }

  ghost function ProfileFate(op: Op, now: int, f: Profile): Option<Profile> {
    match op
    case DeleteProfiles(ids) => if f.id in ids then None else Some(f.(localPort := Clipped(f.localPort)))
    case EditProfile(id, e) =>
      Some(if f.id == id then WithProfileEdit(f, e).(localPort := Clipped(e.localPort), updatedAt := now)
           else f.(localPort := Clipped(f.localPort)))
    case _ => Some(f.(localPort := Clipped(f.localPort)))
  }

  /** Those who are left, in order. */
  function Left<T>(fates: seq<Option<T>>): seq<T> {
    if fates == [] then []
    else
      var last := fates[|fates| - 1];
      Left(fates[..|fates| - 1]) + (if last.Some? then [last.value] else [])
  }

  ghost function KeyFates(s: Store, op: Op, now: int): (r: seq<Option<ApiKey>>)
    ensures |r| == |s.keys|
  {
    seq(|s.keys|, i requires 0 <= i < |s.keys| => KeyFate(s, op, now, s.keys[i]))
  }

  ghost function ProxyFates(s: Store, op: Op, now: int): (r: seq<Option<Proxy>>)
    ensures |r| == |s.proxies|
  {
    seq(|s.proxies|, i requires 0 <= i < |s.proxies| => ProxyFate(s, op, now, s.proxies[i]))
  }

  ghost function ProfileFates(s: Store, op: Op, now: int): (r: seq<Option<Profile>>)
    ensures |r| == |s.profiles|
  {
    seq(|s.profiles|, i requires 0 <= i < |s.profiles| => ProfileFate(op, now, s.profiles[i]))
  }

  // ---------- new records ----------

  function NewKey(s: Store, op: Op, now: int): Option<ApiKey> {
    match op
    case CreateKey(r) =>
      var proxyID := match r.proxy case Some(p) => p case None => 0;
      Some(ApiKey(s.nextKeyID, TrimSpace(r.name), TrimSpace(r.secret), r.weight, KeyActive, r.probeOnly, proxyID, now))
    case _ => None
  }

  ghost function NewProxy(s: Store, op: Op, now: int): Option<Proxy> {
    match op
    case CreateProxy(p) =>
      Some(Proxy(s.nextProxyID, p.name, p.group, p.country, Manual, "", 0, p.kind, p.enabled, p.host, p.port,
                 p.lastTest, p.history, now))
    case UpsertFree(f, group) =>
      if exists i :: 0 <= i < |s.proxies| && Meets(s.proxies[i], f) then None
      else Some(Proxy(s.nextProxyID, FoundName(f), group, f.country, Auto, "", 0, f.kind, f.success, f.host, f.port,
                      Some(f.record), [f.record], now))
    case _ => None
  }

  function NewProfile(s: Store, op: Op, now: int): Option<Profile> {
    match op
    case CreateProfile(f) =>
      Some(Profile(s.nextProfileID, f.name, f.endpoint, f.enabled, Clipped(f.localPort), 0, f.supported, now))
    case _ => None
  }

  /** The changes that are told record by record. */
  predicate Told(op: Op) {
    !op.ImportKeys? && !op.ImportProfiles? && !op.SyncRuntime? && !(op.BindKeys? && TrimSpace(op.group) != "")
  }

  // ---------- lists and fates ----------

  lemma {:induction false} AllLeft<T>(fates: seq<Option<T>>, r: seq<T>)
    requires |r| == |fates| && forall i :: 0 <= i < |fates| ==> fates[i] == Some(r[i])
    ensures Left(fates) == r
  {
    if fates != [] {
      var n := |fates| - 1;
      AllLeft(fates[..n], r[..n]);
      assert r == r[..n] + [r[n]];
    }
  }

  lemma {:induction false} LeftAppend<T>(a: seq<Option<T>>, b: seq<Option<T>>)
    ensures Left(a + b) == Left(a) + Left(b)
  {
    if b == [] {
      assert a + b == a;
    } else {
      assert (a + b)[..|a + b| - 1] == a + b[..|b| - 1];
      LeftAppend(a, b[..|b| - 1]);
    }
  }

  lemma NoneBetween<T>(a: seq<Option<T>>, b: seq<Option<T>>)
    ensures Left(a + [None] + b) == Left(a) + Left(b)
  {
    assert (a + [None])[..|a|] == a;
    LeftAppend(a + [None], b);
  }

  /** One goes, and the others stay as they are. */
  lemma OneGone<T>(fates: seq<Option<T>>, r: seq<T>, i: nat)
    requires i < |fates| == |r| && fates[i] == None
    requires forall j :: 0 <= j < |fates| && j != i ==> fates[j] == Some(r[j])
    ensures Left(fates) == r[..i] + r[i + 1..]
  {
    var before, after := fates[..i], fates[i + 1..];
    AllLeft(before, r[..i]);
    AllLeft(after, r[i + 1..]);
    NoneBetween(before, after);
    assert fates == before + [None] + after;
  }

  /** A filter keeps those who are left. */
  lemma {:induction false} FilterLeaves(fates: seq<Option<Proxy>>, ps: seq<Proxy>, keep: Proxy -> bool)
    requires |fates| == |ps|
    requires forall i :: 0 <= i < |ps| ==> fates[i] == if keep(ps[i]) then Some(ps[i]) else None
    ensures Left(fates) == KeepIf(ps, keep)
  {
    if ps != [] {
      FilterLeaves(fates[..|ps| - 1], ps[..|ps| - 1], keep);
    }
  }

  lemma KeysStay(s: Store, op: Op, now: int)
    requires op.CreateKey? || op.CreateProxy? || op.EditProxy? || op.CreateProfile? || op.EditProfile? || op.UpsertFree?
    ensures Left(KeyFates(s, op, now)) == s.keys
  {
    AllLeft(KeyFates(s, op, now), s.keys);
  }

  lemma ProxiesStay(s: Store, op: Op, now: int)
    requires op.CreateKey? || op.UpdateKey? || op.DeleteKey? || op.BindKeys? || op.CreateProxy? || op.CreateProfile?
             || op.EditProfile?
    ensures Left(ProxyFates(s, op, now)) == s.proxies
  {
    AllLeft(ProxyFates(s, op, now), s.proxies);
  }

  lemma ProfilesStay(s: Store, op: Op, now: int)
    requires !op.EditProfile? && !op.DeleteProfiles?
    ensures Left(ProfileFates(s, op, now)) == Normal(s.profiles)
  {
    AllLeft(ProfileFates(s, op, now), Normal(s.profiles));
  }

  /** The keys that are unbound are those that lose their proxies. */
  lemma UnboundAre(s: Store, op: Op, now: int, removed: set<nat>)
    requires !op.DeleteKey? && !op.UpdateKey? && !op.BindKeys?
    requires forall i :: 0 <= i < |s.keys| ==> (s.keys[i].proxyID in removed <==> LosesProxy(s, op, s.keys[i]))
    ensures Left(KeyFates(s, op, now)) == Unbound(s.keys, removed, now)
  {
    AllLeft(KeyFates(s, op, now), Unbound(s.keys, removed, now));
  }

  // ---------- keys ----------

  /** The store that a mutator gives has these records, and the counters have moved on for the new ones. */
  ghost predicate AsTold(s: Store, op: Op, now: int, t: Store) {
    var key, proxy, profile := NewKey(s, op, now), NewProxy(s, op, now), NewProfile(s, op, now);
    && t.keys == Left(KeyFates(s, op, now) + [key]) && t.nextKeyID == s.nextKeyID + (if key.Some? then 1 else 0)
    && t.proxies == Left(ProxyFates(s, op, now) + [proxy])
    && t.nextProxyID == s.nextProxyID + (if proxy.Some? then 1 else 0)
    && t.profiles == Left(ProfileFates(s, op, now) + [profile])
    && t.nextProfileID == s.nextProfileID + (if profile.Some? then 1 else 0)
  }

  lemma LeftOne<T>(fates: seq<Option<T>>, x: Option<T>)
    ensures Left(fates + [x]) == Left(fates) + (if x.Some? then [x.value] else [])
  {
    assert (fates + [x])[..|fates|] == fates;
  }

  lemma AsToldIf(s: Store, op: Op, now: int, t: Store)
    requires var key, proxy, profile := NewKey(s, op, now), NewProxy(s, op, now), NewProfile(s, op, now);
      && t.keys == Left(KeyFates(s, op, now)) + (if key.Some? then [key.value] else [])
      && t.nextKeyID == s.nextKeyID + (if key.Some? then 1 else 0)
      && t.proxies == Left(ProxyFates(s, op, now)) + (if proxy.Some? then [proxy.value] else [])
      && t.nextProxyID == s.nextProxyID + (if proxy.Some? then 1 else 0)
      && Normal(t.profiles) == Left(ProfileFates(s, op, now)) + (if profile.Some? then [profile.value] else [])
      && t.nextProfileID == s.nextProfileID + (if profile.Some? then 1 else 0)
      && t.nextKeyID > 0 && t.nextProxyID > 0 && t.nextProfileID > 0
    ensures AsTold(s, op, now, Normalized(t))
  {
    LeftOne(KeyFates(s, op, now), NewKey(s, op, now));
    LeftOne(ProxyFates(s, op, now), NewProxy(s, op, now));
    LeftOne(ProfileFates(s, op, now), NewProfile(s, op, now));
  }

  /** A change is refused as it should be and then does nothing, or it does what is told. */
  ghost predicate Tells(s: Store, op: Op, now: int) {
    match Refusal(s, op)
    case Some(error) => Mutate(s, op, now) == Err(error) && Commit(s, op, now) == s
    case None => Mutate(s, op, now).Ok? && AsTold(s, op, now, Commit(s, op, now))
  }

  lemma ReferenceMeaning(s: Store, proxy: Option<nat>)
    ensures Refers(s, proxy) <==> (proxy.Some? ==> ValidReference(s.proxies, proxy.value))
  {
  }

  /** A change of keys leaves proxies and profiles alone. */
  lemma KeysTold(s: Store, op: Op, now: int, keys: seq<ApiKey>)
    requires Inv(s) && (op.UpdateKey? || op.DeleteKey? || op.BindKeys?)
    requires keys == Left(KeyFates(s, op, now))
    ensures AsTold(s, op, now, Normalized(s.(keys := keys)))
  {
    ProxiesStay(s, op, now);
    ProfilesStay(s, op, now);
    AsToldIf(s, op, now, s.(keys := keys));
  }

  lemma CreatedKeyTold(s: Store, op: Op, now: int)
    requires Inv(s) && op.CreateKey?
    ensures AsTold(s, op, now,
                   Normalized(s.(keys := s.keys + [NewKey(s, op, now).value], nextKeyID := s.nextKeyID + 1)))
  {
    KeysStay(s, op, now);
    ProxiesStay(s, op, now);
    ProfilesStay(s, op, now);
    AsToldIf(s, op, now, s.(keys := s.keys + [NewKey(s, op, now).value], nextKeyID := s.nextKeyID + 1));
  }

  /** The change goes through exactly if nothing speaks against it, and fails with the reason that does. */
  ghost predicate Judged(s: Store, op: Op, now: int) {
    match Refusal(s, op)
    case Some(error) => Mutate(s, op, now) == Err(error)
    case None => Mutate(s, op, now).Ok?
  }

  lemma TellsIf(s: Store, op: Op, now: int)
    requires Judged(s, op, now)
    requires Mutate(s, op, now).Ok? ==> AsTold(s, op, now, Normalized(Mutate(s, op, now).store))
    ensures Tells(s, op, now)
  {
  }

  lemma CreateKeyTells(s: Store, r: KeyRequest, now: int)
    requires Inv(s)
    ensures Tells(s, CreateKey(r), now)
  {
    ReferenceMeaning(s, r.proxy);
    CreatedKeyTold(s, CreateKey(r), now);
    TellsIf(s, CreateKey(r), now);
  }

  lemma UpdateKeyJudged(s: Store, id: nat, e: KeyEdit, now: int)
    ensures Judged(s, UpdateKey(id, e), now)
    ensures DoUpdateKey(s, id, e, now).Ok? ==>
              FirstKey(s.keys, id).Some? && FirstKey(s.keys, id).value < |s.keys|
              && s.keys[FirstKey(s.keys, id).value].id == id
  {
    FirstKeyMeaning(s.keys, id);
    ReferenceMeaning(s, e.proxy);
  }

  lemma KeyUpdated(s: Store, id: nat, e: KeyEdit, now: int, i: nat)
    requires Inv(s) && i < |s.keys| && s.keys[i].id == id
    ensures Left(KeyFates(s, UpdateKey(id, e), now)) == s.keys[i := UpdatedKey(s.keys[i], e, now)]
  {
    AllLeft(KeyFates(s, UpdateKey(id, e), now), s.keys[i := UpdatedKey(s.keys[i], e, now)]);
  }

  lemma UpdateKeyTells(s: Store, id: nat, e: KeyEdit, now: int)
    requires Inv(s)
    ensures Tells(s, UpdateKey(id, e), now)
  {
    UpdateKeyJudged(s, id, e, now);
    if DoUpdateKey(s, id, e, now).Ok? {
      var i := FirstKey(s.keys, id).value;
      KeyUpdated(s, id, e, now, i);
      KeysTold(s, UpdateKey(id, e), now, s.keys[i := UpdatedKey(s.keys[i], e, now)]);
    }
    TellsIf(s, UpdateKey(id, e), now);
  }

  lemma DeleteKeyJudged(s: Store, id: nat, now: int)
    ensures Judged(s, DeleteKey(id), now)
    ensures DoDeleteKey(s, id).Ok? ==>
              FirstKey(s.keys, id).Some? && FirstKey(s.keys, id).value < |s.keys|
              && s.keys[FirstKey(s.keys, id).value].id == id
  {
    FirstKeyMeaning(s.keys, id);
  }

  lemma DeleteKeyTells(s: Store, id: nat, now: int)
    requires Inv(s)
    ensures Tells(s, DeleteKey(id), now)
  {
    DeleteKeyJudged(s, id, now);
    if DoDeleteKey(s, id).Ok? {
      var i := FirstKey(s.keys, id).value;
      OneGone(KeyFates(s, DeleteKey(id), now), s.keys, i);
      KeysTold(s, DeleteKey(id), now, s.keys[..i] + s.keys[i + 1..]);
    }
    TellsIf(s, DeleteKey(id), now);
  }

  lemma BindKeysJudged(s: Store, ids: seq<nat>, proxyID: nat, group: string, now: int)
    requires Inv(s)
    ensures Judged(s, BindKeys(ids, proxyID, group), now)
  {
    ZerosMeaning(ids);
    ReferenceMeaning(s, Some(proxyID));
    MembersStored(s, TrimSpace(group));
  }

  lemma ZerosMeaning(ids: seq<nat>)
    ensures UniqueList(ids) == [] <==> OnlyZeros(ids)
  {
    UniqueListMeaning(ids);
    if UniqueList(ids) != [] {
      assert UniqueList(ids)[0] in UniqueList(ids);
    }
    forall i | 0 <= i < |ids| && ids[i] != 0 ensures ids[i] in UniqueList(ids) {
    }
  }

  lemma MembersStored(s: Store, group: string)
    requires Inv(s)
    ensures Grouping.RankedMembers(s.proxies, group) == [] <==> GroupIsEmpty(s, group)
  {
    var members := Grouping.RankedMembers(s.proxies, group);
    assert Grouping.DistinctIds(s.proxies);
    Grouping.RankedMembersMeaning(s.proxies, group);
    if members != [] {
      assert members[0] in members;
    }
    forall i | 0 <= i < |s.proxies| && Grouping.MemberOf(s.proxies[i], group) ensures s.proxies[i] in members {
    }
  }

  lemma KeysBoundTo(s: Store, ids: seq<nat>, proxyID: nat, group: string, now: int)
    requires Inv(s)
    ensures Left(KeyFates(s, BindKeys(ids, proxyID, group), now)) ==
            Rebound(s.keys, SameForAll(UniqueList(ids), proxyID), now)
  {
    UniqueListMeaning(ids);
    AllLeft(KeyFates(s, BindKeys(ids, proxyID, group), now),
            Rebound(s.keys, SameForAll(UniqueList(ids), proxyID), now));
  }

  lemma BindKeysTells(s: Store, ids: seq<nat>, proxyID: nat, group: string, now: int)
    requires Inv(s) && TrimSpace(group) == ""
    ensures Tells(s, BindKeys(ids, proxyID, group), now)
  {
    BindKeysJudged(s, ids, proxyID, group, now);
    KeysBoundTo(s, ids, proxyID, group, now);
    assert Rebound(s.keys, SameForAll([], proxyID), now) == s.keys;
    KeysTold(s, BindKeys(ids, proxyID, group), now, Rebound(s.keys, SameForAll(UniqueList(ids), proxyID), now));
    TellsIf(s, BindKeys(ids, proxyID, group), now);
  }

  // ---------- proxies ----------

  /** A change that takes proxies away or edits them, and unbinds keys. */
  lemma ProxiesTold(s: Store, op: Op, now: int, proxies: seq<Proxy>, keys: seq<ApiKey>)
    requires Inv(s) && (op.EditProxy? || op.DeleteProxy? || op.DeleteProxies? || op.Cleanup?)
    requires proxies == Left(ProxyFates(s, op, now)) && keys == Left(KeyFates(s, op, now))
    ensures AsTold(s, op, now, Normalized(s.(proxies := proxies, keys := keys)))
  {
    ProfilesStay(s, op, now);
    AsToldIf(s, op, now, s.(proxies := proxies, keys := keys));
  }

  lemma CreateProxyTells(s: Store, p: Proxy, now: int)
    requires Inv(s)
    ensures Tells(s, CreateProxy(p), now)
  {
    KeysStay(s, CreateProxy(p), now);
    ProxiesStay(s, CreateProxy(p), now);
    ProfilesStay(s, CreateProxy(p), now);
    AsToldIf(s, CreateProxy(p), now, DoCreateProxy(s, p, now));
    TellsIf(s, CreateProxy(p), now);
  }

  lemma XrayIsNotBlank()
    ensures TrimSpace("xray") == "xray" && TrimSpace("") == ""
  {
    assert "xray"[0] == 'x' && "xray"[3] == 'y';
    TrimmedIsFixed("xray");
  }

  /** In a good store a proxy is read-only exactly if the core manages it. */
  lemma ReadOnlyMeaning(s: Store)
    requires Inv(s)
    ensures forall i :: 0 <= i < |s.proxies| ==> (IsReadOnly(s.proxies[i]) <==> s.proxies[i].managedBy == "xray")
  {
    XrayIsNotBlank();
  }

  lemma FirstProxyIs(s: Store, id: nat)
    requires Inv(s)
    ensures match FirstProxy(s.proxies, id)
      case None => !ProxyStored(s, id)
      case Some(i) => i < |s.proxies| && s.proxies[i].id == id && ProxyStored(s, id)
    ensures FirstProxy(s.proxies, id).Some? && FirstProxy(s.proxies, id).value < |s.proxies| ==>
              (ManagedStored(s, [id]) <==> IsReadOnly(s.proxies[FirstProxy(s.proxies, id).value]))
  {
    FirstProxyMeaning(s.proxies, id);
    ReadOnlyMeaning(s);
    assert id in [id];
  }

  lemma EditProxyJudged(s: Store, id: nat, e: ProxyEdit, now: int)
    requires Inv(s)
    ensures Judged(s, EditProxy(id, e), now)
    ensures DoEditProxy(s, id, e, now).Ok? ==>
              FirstProxy(s.proxies, id).Some? && FirstProxy(s.proxies, id).value < |s.proxies|
              && s.proxies[FirstProxy(s.proxies, id).value].id == id
  {
    FirstProxyIs(s, id);
  }

  lemma EditProxyTells(s: Store, id: nat, e: ProxyEdit, now: int)
    requires Inv(s)
    ensures Tells(s, EditProxy(id, e), now)
  {
    EditProxyJudged(s, id, e, now);
    if DoEditProxy(s, id, e, now).Ok? {
      var i := FirstProxy(s.proxies, id).value;
      var proxies := s.proxies[i := EditedProxy(s.proxies[i], e).(updatedAt := now)];
      ProxyEdited(s, id, e, now, i);
      KeysStay(s, EditProxy(id, e), now);
      ProxiesTold(s, EditProxy(id, e), now, proxies, s.keys);
    }
    TellsIf(s, EditProxy(id, e), now);
  }

  lemma ProxyEdited(s: Store, id: nat, e: ProxyEdit, now: int, i: nat)
    requires Inv(s) && i < |s.proxies| && s.proxies[i].id == id
    ensures Left(ProxyFates(s, EditProxy(id, e), now)) ==
            s.proxies[i := EditedProxy(s.proxies[i], e).(updatedAt := now)]
  {
    AllLeft(ProxyFates(s, EditProxy(id, e), now), s.proxies[i := EditedProxy(s.proxies[i], e).(updatedAt := now)]);
  }

  lemma DeleteProxyJudged(s: Store, id: nat, now: int)
    requires Inv(s)
    ensures Judged(s, DeleteProxy(id), now)
    ensures DoDeleteProxy(s, id, now).Ok? ==>
              FirstProxy(s.proxies, id).Some? && FirstProxy(s.proxies, id).value < |s.proxies|
              && s.proxies[FirstProxy(s.proxies, id).value].id == id
  {
    FirstProxyIs(s, id);
  }

  lemma DeleteProxyTells(s: Store, id: nat, now: int)
    requires Inv(s)
    ensures Tells(s, DeleteProxy(id), now)
  {
    DeleteProxyJudged(s, id, now);
    if DoDeleteProxy(s, id, now).Ok? {
      var i := FirstProxy(s.proxies, id).value;
      ProxyDeleted(s, id, now, i);
      ProxiesTold(s, DeleteProxy(id), now, s.proxies[..i] + s.proxies[i + 1..], Unbound(s.keys, {id}, now));
    }
    TellsIf(s, DeleteProxy(id), now);
  }

  lemma ProxyDeleted(s: Store, id: nat, now: int, i: nat)
    requires Inv(s) && i < |s.proxies| && s.proxies[i].id == id
    ensures Left(ProxyFates(s, DeleteProxy(id), now)) == s.proxies[..i] + s.proxies[i + 1..]
    ensures Left(KeyFates(s, DeleteProxy(id), now)) == Unbound(s.keys, {id}, now)
  {
    OneGone(ProxyFates(s, DeleteProxy(id), now), s.proxies, i);
    UnboundAre(s, DeleteProxy(id), now, {id});
  }

  /** Keys are bound to stored proxies, so those that lose theirs are those that are bound to one that goes. */
  lemma LosersAreBound(s: Store, op: Op, removed: set<nat>, i: nat)
    requires Inv(s) && i < |s.keys| && 0 !in removed
    requires forall j :: 0 <= j < |s.proxies| ==> (Goes(s, op, s.proxies[j]) <==> s.proxies[j].id in removed)
    ensures s.keys[i].proxyID in removed <==> LosesProxy(s, op, s.keys[i])
  {
    assert Bound(s.keys[i], s.proxies);
  }

  /** A change by which the proxies with these ids go. */
  lemma RemovedTold(s: Store, op: Op, now: int, removed: set<nat>)
    requires Inv(s) && (op.DeleteProxies? || op.DeleteProfiles?) && 0 !in removed
    requires forall j :: 0 <= j < |s.proxies| ==> (Goes(s, op, s.proxies[j]) <==> s.proxies[j].id in removed)
    ensures Left(ProxyFates(s, op, now)) == KeepIf(s.proxies, NotIn(removed))
    ensures Left(KeyFates(s, op, now)) == Unbound(s.keys, removed, now)
  {
    FilterLeaves(ProxyFates(s, op, now), s.proxies, NotIn(removed));
    forall i | 0 <= i < |s.keys| ensures s.keys[i].proxyID in removed <==> LosesProxy(s, op, s.keys[i]) {
      LosersAreBound(s, op, removed, i);
    }
    UnboundAre(s, op, now, removed);
  }

  lemma DeleteProxiesJudged(s: Store, ids: seq<nat>, now: int)
    requires Inv(s)
    ensures Judged(s, DeleteProxies(ids), now)
  {
    ReadOnlyMeaning(s);
    var idSet := IdSet(ids);
    if !OnlyZeros(ids) {
      var i :| 0 <= i < |ids| && ids[i] != 0;
      assert ids[i] in idSet;
    }
    assert forall i :: 0 <= i < |s.proxies| ==> (s.proxies[i].id in idSet <==> s.proxies[i].id in ids);
  }

  lemma DeleteProxiesTells(s: Store, ids: seq<nat>, now: int)
    requires Inv(s)
    ensures Tells(s, DeleteProxies(ids), now)
  {
    DeleteProxiesJudged(s, ids, now);
    RemovedTold(s, DeleteProxies(ids), now, IdSet(ids));
    ProxiesTold(s, DeleteProxies(ids), now, KeepIf(s.proxies, NotIn(IdSet(ids))), Unbound(s.keys, IdSet(ids), now));
    TellsIf(s, DeleteProxies(ids), now);
  }

  // ---------- the cleanup ----------

  lemma StaleMeaning(o: CleanupOptions, p: Proxy)
    requires o.enabled
    ensures Stale(o, p) <==> !Keeps(o, p)
  {
  }

  lemma {:induction false} DroppedAre(ps: seq<Proxy>, keep: Proxy -> bool, id: nat)
    ensures id in DroppedIds(ps, keep) <==> exists i :: 0 <= i < |ps| && !keep(ps[i]) && ps[i].id == id
  {
    if ps != [] {
      var before := ps[..|ps| - 1];
      DroppedAre(before, keep, id);
      assert forall i :: 0 <= i < |before| ==> before[i] == ps[i];
    }
  }

  lemma CleanedUp(s: Store, o: CleanupOptions, now: int)
    requires Inv(s) && o.enabled
    ensures Left(ProxyFates(s, Cleanup(o), now)) == KeepIf(s.proxies, Keeping(o))
    ensures Left(KeyFates(s, Cleanup(o), now)) == Unbound(s.keys, DroppedIds(s.proxies, Keeping(o)), now)
  {
    forall i | 0 <= i < |s.proxies| ensures Stale(o, s.proxies[i]) <==> !Keeping(o)(s.proxies[i]) {
      StaleMeaning(o, s.proxies[i]);
    }
    FilterLeaves(ProxyFates(s, Cleanup(o), now), s.proxies, Keeping(o));
    forall i | 0 <= i < |s.keys|
      ensures s.keys[i].proxyID in DroppedIds(s.proxies, Keeping(o)) <==> LosesProxy(s, Cleanup(o), s.keys[i])
    {
      DroppedAre(s.proxies, Keeping(o), s.keys[i].proxyID);
    }
    UnboundAre(s, Cleanup(o), now, DroppedIds(s.proxies, Keeping(o)));
  }

  lemma CleanupTells(s: Store, o: CleanupOptions, now: int)
    requires Inv(s)
    ensures Tells(s, Cleanup(o), now)
  {
    if o.enabled {
      CleanedUp(s, o, now);
      ProxiesTold(s, Cleanup(o), now, KeepIf(s.proxies, Keeping(o)),
                  Unbound(s.keys, DroppedIds(s.proxies, Keeping(o)), now));
    } else {
      AllLeft(ProxyFates(s, Cleanup(o), now), s.proxies);
      AllLeft(KeyFates(s, Cleanup(o), now), s.keys);
      ProxiesTold(s, Cleanup(o), now, s.proxies, s.keys);
    }
    TellsIf(s, Cleanup(o), now);
  }

  /** Of the proxies that a cleanup takes away, each is counted once: as failed or as slow. */
  lemma {:induction false} CleanupCounts(o: CleanupOptions, ps: seq<Proxy>)
    ensures CountFailed(o, ps) + CountSlow(o, ps) + |KeepIf(ps, Keeping(o))| == |ps|
    ensures !o.deleteFailed ==> CountFailed(o, ps) == 0
    ensures o.maxLatency <= 0 ==> CountSlow(o, ps) == 0
  {
    if ps != [] {
      CleanupCounts(o, ps[..|ps| - 1]);
    }
  }

  /** As many keys are counted as unbound as there are bound to one of these proxies. */
  lemma {:induction false} UnboundAreCounted(keys: seq<ApiKey>, removed: set<nat>)
    ensures CountBound(keys, removed) == |set i | 0 <= i < |keys| && keys[i].proxyID in removed|
  {
    var all := set i | 0 <= i < |keys| && keys[i].proxyID in removed;
    if keys == [] {
      assert all == {};
    } else {
      var n := |keys| - 1;
      var before := set i | 0 <= i < n && keys[..n][i].proxyID in removed;
      UnboundAreCounted(keys[..n], removed);
      assert all == before + (if keys[n].proxyID in removed then {n} else {});
    }
  }

  // ---------- proxies that were found ----------

  lemma {:induction false} FirstEndpointIsFirst(ps: seq<Proxy>, f: Found)
    ensures match FirstEndpoint(ps, f)
      case None => forall i :: 0 <= i < |ps| ==> !Meets(ps[i], f)
      case Some(i) => i < |ps| && Meets(ps[i], f) && forall j :: 0 <= j < i ==> !Meets(ps[j], f)
  {
    if ps != [] {
      var n := |ps| - 1;
      FirstEndpointIsFirst(ps[..n], f);
      assert forall i :: 0 <= i < n ==> ps[..n][i] == ps[i];
    }
  }

  /** The counter of an import that goes up: new, known and automatic, or known and somebody else's. */
  lemma ImportMeaning(s: Store, f: Found)
    ensures ImportOf(s, f) == IsNew <==> forall i :: 0 <= i < |s.proxies| ==> !Meets(s.proxies[i], f)
    ensures ImportOf(s, f) == IsUpdate <==> exists i :: 0 <= i < |s.proxies| && FirstMet(s, f, s.proxies[i]) &&
                                                         s.proxies[i].source == Auto
  {
    FirstEndpointIsFirst(s.proxies, f);
    var first := FirstEndpoint(s.proxies, f);
    if first.Some? {
      assert FirstMet(s, f, s.proxies[first.value]);
      forall i | 0 <= i < |s.proxies| && FirstMet(s, f, s.proxies[i])
        ensures s.proxies[i] == s.proxies[first.value]
      {
      }
    }
  }

  lemma NameFound(f: Found)
    ensures AutoName(f) == FoundName(f)
  {
    if f.kind == "socks5h" {
      assert "AUTO " + "socks5" + "://" == "AUTO socks5://";
    }
  }

  lemma RefreshedAsTold(s: Store, f: Found, group: string, now: int, i: nat)
    requires Inv(s) && i < |s.proxies| && Meets(s.proxies[i], f) && forall j :: 0 <= j < i ==> !Meets(s.proxies[j], f)
    ensures Left(ProxyFates(s, UpsertFree(f, group), now)) ==
            s.proxies[i := Refreshed(s.proxies[i], f, group, now)]
  {
    var p := s.proxies[i];
    NameFound(f);
    BlankMeansTrimmedAway(f.country);
    BlankMeansTrimmedAway(p.group);
    assert FirstMet(s, f, p);
    forall j | 0 <= j < |s.proxies| && j != i ensures !FirstMet(s, f, s.proxies[j]) {
    }
    AllLeft(ProxyFates(s, UpsertFree(f, group), now), s.proxies[i := Refreshed(p, f, group, now)]);
  }

  lemma NoneMet(s: Store, f: Found, group: string, now: int)
    requires Inv(s) && forall i :: 0 <= i < |s.proxies| ==> !Meets(s.proxies[i], f)
    ensures Left(ProxyFates(s, UpsertFree(f, group), now)) == s.proxies
    ensures NewProxy(s, UpsertFree(f, group), now) == Some(Imported(s.nextProxyID, f, group, now))
  {
    NameFound(f);
    AllLeft(ProxyFates(s, UpsertFree(f, group), now), s.proxies);
  }

  lemma UpsertedProxies(s: Store, f: Found, group: string, now: int)
    requires Inv(s)
    ensures var op, t := UpsertFree(f, group), DoUpsert(s, f, group, now);
      var p := NewProxy(s, op, now);
      && t == s.(proxies := t.proxies, nextProxyID := t.nextProxyID)
      && t.proxies == Left(ProxyFates(s, op, now)) + (if p.Some? then [p.value] else [])
      && t.nextProxyID == s.nextProxyID + (if p.Some? then 1 else 0)
  {
    FirstEndpointIsFirst(s.proxies, f);
    match FirstEndpoint(s.proxies, f) {
      case None => NoneMet(s, f, group, now);
      case Some(i) => RefreshedAsTold(s, f, group, now, i);
    }
  }

  /** A change of proxies alone that may add one. */
  lemma UpsertTold(s: Store, op: Op, now: int, t: Store)
    requires Inv(s) && op.UpsertFree? && t == s.(proxies := t.proxies, nextProxyID := t.nextProxyID)
    requires var p := NewProxy(s, op, now);
      && t.proxies == Left(ProxyFates(s, op, now)) + (if p.Some? then [p.value] else [])
      && t.nextProxyID == s.nextProxyID + (if p.Some? then 1 else 0)
    ensures AsTold(s, op, now, Normalized(t))
  {
    KeysStay(s, op, now);
    ProfilesStay(s, op, now);
    AsToldIf(s, op, now, t);
  }

  lemma UpsertTells(s: Store, f: Found, group: string, now: int)
    requires Inv(s)
    ensures Tells(s, UpsertFree(f, group), now)
  {
    UpsertedProxies(s, f, group, now);
    UpsertTold(s, UpsertFree(f, group), now, DoUpsert(s, f, group, now));
    TellsIf(s, UpsertFree(f, group), now);
  }

  // ---------- profiles ----------

  /** A change of profiles leaves keys and proxies alone. */
  lemma ProfilesTold(s: Store, op: Op, now: int, t: Store)
    requires Inv(s) && (op.CreateProfile? || op.EditProfile?)
    requires t == s.(profiles := t.profiles, nextProfileID := t.nextProfileID)
    requires var f := NewProfile(s, op, now);
      && Normal(t.profiles) == Left(ProfileFates(s, op, now)) + (if f.Some? then [f.value] else [])
      && t.nextProfileID == s.nextProfileID + (if f.Some? then 1 else 0)
    ensures AsTold(s, op, now, Normalized(t))
  {
    KeysStay(s, op, now);
    ProxiesStay(s, op, now);
    AsToldIf(s, op, now, t);
  }

  lemma CreateProfileTells(s: Store, f: Profile, now: int)
    requires Inv(s)
    ensures Tells(s, CreateProfile(f), now)
  {
    var t := DoCreateProfile(s, f, now);
    ProfilesStay(s, CreateProfile(f), now);
    assert Normal(t.profiles) == Normal(s.profiles) + [NewProfile(s, CreateProfile(f), now).value];
    ProfilesTold(s, CreateProfile(f), now, t);
    TellsIf(s, CreateProfile(f), now);
  }

  lemma {:induction false} FirstProfileMeaning(fs: seq<Profile>, id: nat)
    ensures match FirstProfile(fs, id)
      case None => forall i :: 0 <= i < |fs| ==> fs[i].id != id
      case Some(i) => i < |fs| && fs[i].id == id
  {
    if fs != [] {
      FirstProfileMeaning(fs[..|fs| - 1], id);
    }
  }

  lemma ProfileEdited(s: Store, id: nat, e: ProfileEdit, now: int, i: nat)
    requires Inv(s) && i < |s.profiles| && s.profiles[i].id == id
    ensures Left(ProfileFates(s, EditProfile(id, e), now)) ==
            Normal(s.profiles[i := EditedProfile(s.profiles[i], e).(updatedAt := now)])
  {
    AllLeft(ProfileFates(s, EditProfile(id, e), now),
            Normal(s.profiles[i := EditedProfile(s.profiles[i], e).(updatedAt := now)]));
  }

  lemma EditProfileJudged(s: Store, id: nat, e: ProfileEdit, now: int)
    requires Inv(s)
    ensures Judged(s, EditProfile(id, e), now)
    ensures DoEditProfile(s, id, e, now).Ok? ==>
              FirstProfile(s.profiles, id).Some? && FirstProfile(s.profiles, id).value < |s.profiles|
              && s.profiles[FirstProfile(s.profiles, id).value].id == id
  {
    FirstProfileMeaning(s.profiles, id);
  }

  lemma EditProfileTells(s: Store, id: nat, e: ProfileEdit, now: int)
    requires Inv(s)
    ensures Tells(s, EditProfile(id, e), now)
  {
    EditProfileJudged(s, id, e, now);
    if DoEditProfile(s, id, e, now).Ok? {
      ProfileEdited(s, id, e, now, FirstProfile(s.profiles, id).value);
      ProfilesTold(s, EditProfile(id, e), now, DoEditProfile(s, id, e, now).store);
    }
    TellsIf(s, EditProfile(id, e), now);
  }

  lemma {:induction false} ProxiesOfAre(fs: seq<Profile>, ids: set<nat>, id: nat)
    ensures id in ProxiesOf(fs, ids) <==>
            id > 0 && exists i :: 0 <= i < |fs| && fs[i].id in ids && fs[i].managedProxyID == id
  {
    if fs != [] {
      var before := fs[..|fs| - 1];
      ProxiesOfAre(before, ids, id);
      assert forall i :: 0 <= i < |before| ==> before[i] == fs[i];
    }
  }

  lemma {:induction false} KeptAreLeft(fates: seq<Option<Profile>>, fs: seq<Profile>, ids: set<nat>)
    requires |fates| == |fs|
    requires forall i :: 0 <= i < |fs| ==> fates[i] == if fs[i].id in ids then None else Some(NormalProfile(fs[i]))
    ensures Left(fates) == Normal(KeptProfiles(fs, ids))
  {
    if fs != [] {
      var n := |fs| - 1;
      KeptAreLeft(fates[..n], fs[..n], ids);
      var kept := KeptProfiles(fs[..n], ids);
      assert Normal(kept + [fs[n]]) == Normal(kept) + [NormalProfile(fs[n])];
    }
  }

  lemma ProfilesDeleted(s: Store, ids: seq<nat>, now: int)
    requires Inv(s)
    ensures Left(ProfileFates(s, DeleteProfiles(ids), now)) == Normal(KeptProfiles(s.profiles, IdSet(ids)))
    ensures var removed := ProxiesOf(s.profiles, IdSet(ids));
      && Left(ProxyFates(s, DeleteProfiles(ids), now)) == KeepIf(s.proxies, NotIn(removed))
      && Left(KeyFates(s, DeleteProfiles(ids), now)) == Unbound(s.keys, removed, now)
  {
    KeptAreLeft(ProfileFates(s, DeleteProfiles(ids), now), s.profiles, IdSet(ids));
    var removed := ProxiesOf(s.profiles, IdSet(ids));
    ProxiesOfAre(s.profiles, IdSet(ids), 0);
    forall j | 0 <= j < |s.proxies|
      ensures Goes(s, DeleteProfiles(ids), s.proxies[j]) <==> s.proxies[j].id in removed
    {
      ProxiesOfAre(s.profiles, IdSet(ids), s.proxies[j].id);
    }
    RemovedTold(s, DeleteProfiles(ids), now, removed);
  }

  lemma DeletedProfilesTold(s: Store, ids: seq<nat>, now: int)
    requires Inv(s)
    ensures var removed := ProxiesOf(s.profiles, IdSet(ids));
      AsTold(s, DeleteProfiles(ids), now,
             Normalized(s.(profiles := KeptProfiles(s.profiles, IdSet(ids)),
                           proxies := KeepIf(s.proxies, NotIn(removed)), keys := Unbound(s.keys, removed, now))))
  {
    ProfilesDeleted(s, ids, now);
    var removed := ProxiesOf(s.profiles, IdSet(ids));
    AsToldIf(s, DeleteProfiles(ids), now,
             s.(profiles := KeptProfiles(s.profiles, IdSet(ids)), proxies := KeepIf(s.proxies, NotIn(removed)),
                keys := Unbound(s.keys, removed, now)));
  }

  lemma DeleteProfilesTells(s: Store, ids: seq<nat>, now: int)
    requires Inv(s)
    ensures Tells(s, DeleteProfiles(ids), now)
  {
    assert forall i :: 0 <= i < |s.profiles| ==> (s.profiles[i].id in IdSet(ids) <==> s.profiles[i].id in ids);
    DeletedProfilesTold(s, ids, now);
    TellsIf(s, DeleteProfiles(ids), now);
  }

  // ---------- every change ----------

  /**
   Every change that is told record by record: it is refused exactly for the reasons given and then
   changes nothing, or every stored record meets its fate, in order, and the new ones follow.
   */
  lemma EffectOfChange(s: Store, op: Op, now: int)
    requires Inv(s) && Told(op)
    ensures Tells(s, op, now)
  {
    match op
    case CreateKey(r) => CreateKeyTells(s, r, now);
    case UpdateKey(id, e) => UpdateKeyTells(s, id, e, now);
    case DeleteKey(id) => DeleteKeyTells(s, id, now);
    case BindKeys(ids, proxyID, group) => BindKeysTells(s, ids, proxyID, group, now);
    case CreateProxy(p) => CreateProxyTells(s, p, now);
    case EditProxy(id, e) => EditProxyTells(s, id, e, now);
    case DeleteProxy(id) => DeleteProxyTells(s, id, now);
    case DeleteProxies(ids) => DeleteProxiesTells(s, ids, now);
    case CreateProfile(f) => CreateProfileTells(s, f, now);
    case EditProfile(id, e) => EditProfileTells(s, id, e, now);
    case DeleteProfiles(ids) => DeleteProfilesTells(s, ids, now);
    case UpsertFree(f, group) => UpsertTells(s, f, group, now);
    case Cleanup(o) => CleanupTells(s, o, now);
  }

  // ---------- counters that are missing ----------

  lemma {:induction false} MaxKeyIdMeaning(keys: seq<ApiKey>)
    ensures forall i :: 0 <= i < |keys| ==> keys[i].id <= MaxKeyId(keys)
    ensures MaxKeyId(keys) > 0 ==> exists i :: 0 <= i < |keys| && keys[i].id == MaxKeyId(keys)
  {
    if keys != [] {
      var n := |keys| - 1;
      MaxKeyIdMeaning(keys[..n]);
      assert forall i :: 0 <= i < n ==> keys[..n][i] == keys[i];
      if keys[n].id <= MaxKeyId(keys[..n]) && MaxKeyId(keys[..n]) > 0 {
        var i :| 0 <= i < n && keys[..n][i].id == MaxKeyId(keys[..n]);
        assert keys[i].id == MaxKeyId(keys);
      }
    }
  }

  lemma {:induction false} MaxProxyIdMeaning(ps: seq<Proxy>)
    ensures forall i :: 0 <= i < |ps| ==> ps[i].id <= MaxProxyId(ps)
    ensures MaxProxyId(ps) > 0 ==> exists i :: 0 <= i < |ps| && ps[i].id == MaxProxyId(ps)
  {
    if ps != [] {
      var n := |ps| - 1;
      MaxProxyIdMeaning(ps[..n]);
      assert forall i :: 0 <= i < n ==> ps[..n][i] == ps[i];
      if ps[n].id <= MaxProxyId(ps[..n]) && MaxProxyId(ps[..n]) > 0 {
        var i :| 0 <= i < n && ps[..n][i].id == MaxProxyId(ps[..n]);
        assert ps[i].id == MaxProxyId(ps);
      }
    }
  }

  lemma {:induction false} MaxProfileIdMeaning(fs: seq<Profile>)
    ensures forall i :: 0 <= i < |fs| ==> fs[i].id <= MaxProfileId(fs)
    ensures MaxProfileId(fs) > 0 ==> exists i :: 0 <= i < |fs| && fs[i].id == MaxProfileId(fs)
  {
    if fs != [] {
      var n := |fs| - 1;
      MaxProfileIdMeaning(fs[..n]);
      assert forall i :: 0 <= i < n ==> fs[..n][i] == fs[i];
      if fs[n].id <= MaxProfileId(fs[..n]) && MaxProfileId(fs[..n]) > 0 {
        var i :| 0 <= i < n && fs[..n][i].id == MaxProfileId(fs[..n]);
        assert fs[i].id == MaxProfileId(fs);
      }
    }
  }

  /** The least counter behind all ids, which is 1 if there are none. */
  ghost predicate JustBehind(next: nat, ids: set<nat>) {
    next > 0 && (forall id :: id in ids ==> id < next) && (next > 1 ==> next - 1 in ids)
  }

  /** A store that comes without counters gets those just behind the ids in use; others are kept. */
  lemma MissingCounters(s: Store)
    ensures var t := Normalized(s);
      && (if s.nextKeyID > 0 then t.nextKeyID == s.nextKeyID
          else JustBehind(t.nextKeyID, set i | 0 <= i < |s.keys| :: s.keys[i].id))
      && (if s.nextProxyID > 0 then t.nextProxyID == s.nextProxyID
          else JustBehind(t.nextProxyID, set i | 0 <= i < |s.proxies| :: s.proxies[i].id))
      && (if s.nextProfileID > 0 then t.nextProfileID == s.nextProfileID
          else JustBehind(t.nextProfileID, set i | 0 <= i < |s.profiles| :: s.profiles[i].id))
  {
    MaxKeyIdMeaning(s.keys);
    MaxProxyIdMeaning(s.proxies);
    MaxProfileIdMeaning(s.profiles);
  }
}
