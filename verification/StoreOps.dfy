/**
 The changes that the administration and the core manager make to the store, each under the
 transaction of `Commit`, and the invariant that all of them keep.
 */
module StoreOps {
  import opened Text
  import opened StoreData
  import opened CorePorts
  import opened CoreSync
  import Grouping = ProxyGrouping
  import Sorting

  datatype Error = NotFound | ReadOnly | NoSuchProxy | NoSuchGroup | Rejected

  datatype Outcome = Ok(store: Store) | Err(error: Error)

  /** New values for the fields of a proxy that may be edited, and the check that they must pass. */
  datatype ProxyEdit = ProxyEdit(name: string, group: string, kind: string, enabled: bool, host: string, port: int,
                                 valid: Proxy -> bool)

  datatype ProfileEdit = ProfileEdit(name: string, endpoint: string, enabled: bool, localPort: int, supported: bool,
                                     valid: Profile -> bool)

  datatype KeyRequest = KeyRequest(name: string, secret: string, weight: real, probeOnly: bool, proxy: Option<nat>)

  /** New values for the fields of a key; a blank secret leaves the stored one. */
  datatype KeyEdit = KeyEdit(name: Option<string>, weight: Option<real>, secret: string, probeOnly: Option<bool>,
                             proxy: Option<nat>)

  /** A line of a bulk import of keys, which may give no name. */
  datatype KeyLine = Unreadable | KeyLine(name: Option<string>, secret: string, weight: real)

  /** A node of a bulk import of profiles: its fingerprint, and the profile unless its fields are not valid. */
  datatype NodeLine = NodeLine(endpoint: string, profile: Option<Profile>)

  /** A freely available proxy that was found and tested. */
  datatype Found = Found(kind: string, host: string, port: int, country: string, success: bool, record: TestRecord)

  datatype CleanupOptions = CleanupOptions(enabled: bool, deleteFailed: bool, maxLatency: int)

  datatype Op =
    | CreateKey(request: KeyRequest)
    | ImportKeys(lines: seq<KeyLine>)
    | UpdateKey(id: nat, keyEdit: KeyEdit)
    | DeleteKey(id: nat)
    | BindKeys(keyIDs: seq<nat>, proxyID: nat, group: string)
    | CreateProxy(template: Proxy)
    | EditProxy(id: nat, edit: ProxyEdit)
    | DeleteProxy(id: nat)
    | DeleteProxies(ids: seq<nat>)
    | CreateProfile(profile: Profile)
    | ImportProfiles(nodes: seq<NodeLine>)
    | EditProfile(id: nat, profileEdit: ProfileEdit)
    | DeleteProfiles(ids: seq<nat>)
    | UpsertFree(found: Found, defaultGroup: string)
    | Cleanup(options: CleanupOptions)
    | SyncRuntime

  // ---------- keys ----------

  predicate ValidReference(ps: seq<Proxy>, proxyID: nat) {
    proxyID == 0 || HasId(ps, proxyID)
  }

  function FirstKey(keys: seq<ApiKey>, id: nat): Option<nat> {
    if keys == [] then None
    else if FirstKey(keys[..|keys| - 1], id).Some? then FirstKey(keys[..|keys| - 1], id)
    else if keys[|keys| - 1].id == id then Some(|keys| - 1)
    else None
  }

  /** AddAPIKey, after validateAPIKeyCreate. */
  function DoCreateKey(s: Store, r: KeyRequest, now: int): Outcome {
    if TrimSpace(r.name) == "" || TrimSpace(r.secret) == "" || r.weight <= 0.0 then Err(Rejected)
    else if r.proxy.Some? && !ValidReference(s.proxies, r.proxy.value) then Err(NoSuchProxy)
    else
      var proxyID := if r.proxy.Some? then r.proxy.value else 0;
      Ok(WithKey(s, TrimSpace(r.name), TrimSpace(r.secret), r.weight, r.probeOnly, proxyID, now))
  }

  /** The store with one more key, which gets the next id. */
  function WithKey(s: Store, name: string, secret: string, weight: real, probeOnly: bool, proxyID: nat,
                   now: int): Store {
    s.(keys := s.keys + [ApiKey(s.nextKeyID, name, secret, weight, KeyActive, probeOnly, proxyID, now)],
       nextKeyID := s.nextKeyID + 1)
  }

  function UpdatedKey(k: ApiKey, e: KeyEdit, now: int): ApiKey {
    k.(name := if e.name.Some? then TrimSpace(e.name.value) else k.name,
       weight := if e.weight.Some? then e.weight.value else k.weight,
       secret := if TrimSpace(e.secret) != "" then TrimSpace(e.secret) else k.secret,
       probeOnly := if e.probeOnly.Some? then e.probeOnly.value else k.probeOnly,
       proxyID := if e.proxy.Some? then e.proxy.value else k.proxyID,
       updatedAt := now)
  }

  function DoUpdateKey(s: Store, id: nat, e: KeyEdit, now: int): Outcome {
    match FirstKey(s.keys, id)
    case None => Err(NotFound)
    case Some(i) =>
      if e.name.Some? && TrimSpace(e.name.value) == "" then Err(Rejected)
      else if e.weight.Some? && e.weight.value <= 0.0 then Err(Rejected)
      else if e.proxy.Some? && !ValidReference(s.proxies, e.proxy.value) then Err(NoSuchProxy)
      else if i < |s.keys| then Ok(s.(keys := s.keys[i := UpdatedKey(s.keys[i], e, now)]))
      else Err(NotFound)
  }

  predicate HasSecret(keys: seq<ApiKey>, secret: string) {
    exists i :: 0 <= i < |keys| && keys[i].secret == secret
  }

  /** fmt.Sprintf("NVIDIA-%04d", id) */
  function DefaultKeyName(id: nat): string {
    var digits := Decimal(id);
    "NVIDIA-" + (if |digits| < 4 then "0000"[|digits|..] else "") + digits
  }

  /** One line of an import: a key that is not stored yet is appended. */
  function ImportKey(s: Store, l: KeyLine, now: int): Store {
    match l
    case Unreadable => s
    case KeyLine(name, secret, weight) =>
      if HasSecret(s.keys, secret) then s
      else WithKey(s, if name.Some? then name.value else DefaultKeyName(s.nextKeyID), secret, weight, false, 0, now)
  }

  function DoImportKeys(s: Store, lines: seq<KeyLine>, now: int): Store {
    if lines == [] then s else ImportKey(DoImportKeys(s, lines[..|lines| - 1], now), lines[|lines| - 1], now)
  }

  function DoDeleteKey(s: Store, id: nat): Outcome {
    match FirstKey(s.keys, id)
    case None => Err(NotFound)
    case Some(i) => if i < |s.keys| then Ok(s.(keys := s.keys[..i] + s.keys[i + 1..])) else Err(NotFound)
  }

  /** Non-zero ids, each once, in order of first appearance. */
  function Distinct(ids: seq<nat>): seq<int> {
    if ids == [] then []
    else
      var before, last := Distinct(ids[..|ids| - 1]), ids[|ids| - 1];
      if last == 0 || last in before then before else before + [last]
  }

  /** uniqueUintList */
  function UniqueList(ids: seq<nat>): seq<int> {
    Sorting.Sorted(Distinct(ids))
  }

  function SameForAll(ids: seq<int>, proxyID: nat): map<int, nat> {
    map id | id in ids :: proxyID
  }

  function Rebound(keys: seq<ApiKey>, assignment: map<int, nat>, now: int): (r: seq<ApiKey>)
    ensures |r| == |keys|
  {
    seq(|keys|, i requires 0 <= i < |keys| => ReboundKey(keys[i], assignment, now))
  }

  function ReboundKey(k: ApiKey, assignment: map<int, nat>, now: int): ApiKey {
    if k.id in assignment then k.(proxyID := assignment[k.id], updatedAt := now) else k
  }

  /** applyBulkAPIKeyProxyBindingToStore: to the members of a group, to one proxy, or to none. */
  function DoBindKeys(s: Store, keyIDs: seq<nat>, proxyID: nat, group: string, now: int): Outcome {
    var ids := UniqueList(keyIDs);
    if ids == [] then Ok(s)
    else if TrimSpace(group) != "" then
      var members := Grouping.RankedMembers(s.proxies, TrimSpace(group));
      if members == [] then Err(NoSuchGroup)
      else Ok(s.(keys := Rebound(s.keys, Grouping.Assigned(ids, Grouping.Weighted(members)), now)))
    else if !ValidReference(s.proxies, proxyID) then Err(NoSuchProxy)
    else Ok(s.(keys := Rebound(s.keys, SameForAll(ids, proxyID), now)))
  }

  // ---------- proxies ----------

  function DoCreateProxy(s: Store, template: Proxy, now: int): Store {
    s.(proxies := s.proxies + [template.(id := s.nextProxyID, source := Manual, managedBy := "", managedRefID := 0,
                                         updatedAt := now)],
       nextProxyID := s.nextProxyID + 1)
  }

  function FirstProxy(ps: seq<Proxy>, id: nat): Option<nat> {
    if ps == [] then None
    else if FirstProxy(ps[..|ps| - 1], id).Some? then FirstProxy(ps[..|ps| - 1], id)
    else if ps[|ps| - 1].id == id then Some(|ps| - 1)
    else None
  }

  predicate IsReadOnly(p: Proxy) {
    TrimSpace(p.managedBy) != ""
  }

  function EditedProxy(p: Proxy, e: ProxyEdit): Proxy {
    p.(name := e.name, group := e.group, kind := e.kind, enabled := e.enabled, host := e.host, port := e.port)
  }

  function DoEditProxy(s: Store, id: nat, e: ProxyEdit, now: int): Outcome {
    match FirstProxy(s.proxies, id)
    case None => Err(NotFound)
    case Some(i) =>
      if i >= |s.proxies| then Err(NotFound)
      else if IsReadOnly(s.proxies[i]) then Err(ReadOnly)
      else if !e.valid(EditedProxy(s.proxies[i], e)) then Err(Rejected)
      else Ok(s.(proxies := s.proxies[i := EditedProxy(s.proxies[i], e).(updatedAt := now)]))
  }

  function DoDeleteProxy(s: Store, id: nat, now: int): Outcome {
    match FirstProxy(s.proxies, id)
    case None => Err(NotFound)
    case Some(i) =>
      if i >= |s.proxies| then Err(NotFound)
      else if IsReadOnly(s.proxies[i]) then Err(ReadOnly)
      else Ok(s.(proxies := s.proxies[..i] + s.proxies[i + 1..], keys := Unbound(s.keys, {id}, now)))
  }

  function KeepIf(ps: seq<Proxy>, keep: Proxy -> bool): seq<Proxy> {
    if ps == [] then [] else KeepIf(ps[..|ps| - 1], keep) + (if keep(ps[|ps| - 1]) then [ps[|ps| - 1]] else [])
  }

  function DroppedIds(ps: seq<Proxy>, keep: Proxy -> bool): set<nat> {
    if ps == [] then {} else DroppedIds(ps[..|ps| - 1], keep) + (if keep(ps[|ps| - 1]) then {} else {ps[|ps| - 1].id})
  }

  function IdSet(ids: seq<nat>): set<nat> {
    set id | id in ids && id > 0
  }

  function NotIn(ids: set<nat>): Proxy -> bool {
    (p: Proxy) => p.id !in ids
  }

  /** deleteManualUpstreamProxiesByIDs */
  function DoDeleteProxies(s: Store, ids: seq<nat>, now: int): Outcome {
    var idSet := IdSet(ids);
    if idSet == {} then Err(Rejected)
    else if exists i :: 0 <= i < |s.proxies| && s.proxies[i].id in idSet && IsReadOnly(s.proxies[i]) then Err(ReadOnly)
    else if forall i :: 0 <= i < |s.proxies| ==> s.proxies[i].id !in idSet then Err(NotFound)
    else Ok(s.(proxies := KeepIf(s.proxies, NotIn(idSet)), keys := Unbound(s.keys, idSet, now)))
  }

  // ---------- core profiles ----------

  function DoCreateProfile(s: Store, f: Profile, now: int): Store {
    s.(profiles := s.profiles + [f.(id := s.nextProfileID, managedProxyID := 0, updatedAt := now)],
       nextProfileID := s.nextProfileID + 1)
  }

  /** The store during a bulk import, and the fingerprints that it knows by then. */
  datatype Importing = Importing(store: Store, known: set<string>)

  function Endpoints(fs: seq<Profile>): set<string> {
    set i | 0 <= i < |fs| :: fs[i].endpoint
  }

  /** One node of an import: a valid one that is not known yet is appended. */
  function ImportProfile(st: Importing, l: NodeLine, now: int): Importing {
    if l.endpoint in st.known || l.profile.None? then st
    else Importing(DoCreateProfile(st.store, l.profile.value, now), st.known + {l.endpoint})
  }

  function ImportNodes(st: Importing, nodes: seq<NodeLine>, now: int): Importing {
    if nodes == [] then st else ImportProfile(ImportNodes(st, nodes[..|nodes| - 1], now), nodes[|nodes| - 1], now)
  }

  /** The import of core profiles: the stored ones are given ports first. */
  function DoImportProfiles(s: Store, nodes: seq<NodeLine>, now: int): Store {
    ImportNodes(ImportStart(s), nodes, now).store
  }

  function ImportStart(s: Store): Importing {
    Importing(s.(profiles := Allocate(s.profiles)), Endpoints(Allocate(s.profiles)))
  }

  function FirstProfile(fs: seq<Profile>, id: nat): Option<nat> {
    if fs == [] then None
    else if FirstProfile(fs[..|fs| - 1], id).Some? then FirstProfile(fs[..|fs| - 1], id)
    else if fs[|fs| - 1].id == id then Some(|fs| - 1)
    else None
  }

  function EditedProfile(f: Profile, e: ProfileEdit): Profile {
    f.(name := e.name, endpoint := e.endpoint, enabled := e.enabled, localPort := e.localPort, supported := e.supported)
  }

  function DoEditProfile(s: Store, id: nat, e: ProfileEdit, now: int): Outcome {
    match FirstProfile(s.profiles, id)
    case None => Err(NotFound)
    case Some(i) =>
      if i >= |s.profiles| then Err(NotFound)
      else if !e.valid(EditedProfile(s.profiles[i], e)) then Err(Rejected)
      else Ok(s.(profiles := s.profiles[i := EditedProfile(s.profiles[i], e).(updatedAt := now)]))
  }

  function KeptProfiles(fs: seq<Profile>, ids: set<nat>): seq<Profile> {
    if fs == [] then [] else KeptProfiles(fs[..|fs| - 1], ids) + (if fs[|fs| - 1].id in ids then [] else [fs[|fs| - 1]])
  }

  /** The proxies of the profiles with these ids. */
  function ProxiesOf(fs: seq<Profile>, ids: set<nat>): set<nat> {
    if fs == [] then {}
    else
      var last := fs[|fs| - 1];
      ProxiesOf(fs[..|fs| - 1], ids) + (if last.id in ids && last.managedProxyID > 0 then {last.managedProxyID} else {})
  }

  /** deleteCoreProfilesByIDs: their proxies go with them. */
  function DoDeleteProfiles(s: Store, ids: seq<nat>, now: int): Outcome {
    var idSet := IdSet(ids);
    if forall i :: 0 <= i < |s.profiles| ==> s.profiles[i].id !in idSet then Err(NotFound)
    else
      var removed := ProxiesOf(s.profiles, idSet);
      Ok(s.(profiles := KeptProfiles(s.profiles, idSet), proxies := KeepIf(s.proxies, NotIn(removed)),
            keys := Unbound(s.keys, removed, now)))
  }

  // ---------- freely available proxies ----------

  const MAX_TEST_HISTORY := 10

  function MergedHistory(history: seq<TestRecord>, record: TestRecord): seq<TestRecord> {
    [record] + (if |history| < MAX_TEST_HISTORY then history else history[..MAX_TEST_HISTORY - 1])
  }

  predicate SameEndpoint(p: Proxy, f: Found) {
    p.kind == f.kind && Grouping.Lower(TrimSpace(p.host)) == Grouping.Lower(TrimSpace(f.host)) && p.port == f.port
  }

  function FirstEndpoint(ps: seq<Proxy>, f: Found): Option<nat> {
    if ps == [] then None
    else if FirstEndpoint(ps[..|ps| - 1], f).Some? then FirstEndpoint(ps[..|ps| - 1], f)
    else if SameEndpoint(ps[|ps| - 1], f) then Some(|ps| - 1)
    else None
  }

  function AutoName(f: Found): string {
    "AUTO " + (if f.kind == "socks5h" then "socks5" else f.kind) + "://" + f.host + ":" + Decimal(f.port)
  }

  /** A stored proxy that was found again: the test is recorded, and an automatic proxy is refreshed. */
  function Refreshed(p: Proxy, f: Found, defaultGroup: string, now: int): Proxy {
    var q := p.(lastTest := Some(f.record), history := MergedHistory(p.history, f.record), updatedAt := now);
    if p.source.Auto?
    then q.(enabled := f.success, country := if Blank(f.country) then p.country else f.country,
            group := if Blank(p.group) then defaultGroup else p.group, name := AutoName(f))
    else q
  }

  function Imported(id: nat, f: Found, defaultGroup: string, now: int): Proxy {
    Proxy(id, AutoName(f), defaultGroup, f.country, Auto, "", 0, f.kind, f.success, f.host, f.port, Some(f.record),
          [f.record], now)
  }

  /** Which of its counters an import raises. */
  datatype Import = IsNew | IsUpdate | MatchesManual

  function ImportOf(s: Store, f: Found): Import {
    match FirstEndpoint(s.proxies, f)
    case None => IsNew
    case Some(i) => if i < |s.proxies| && !s.proxies[i].source.Auto? then MatchesManual else IsUpdate
  }

  /** upsertImportedFreeProxy */
  function DoUpsert(s: Store, f: Found, defaultGroup: string, now: int): Store {
    match FirstEndpoint(s.proxies, f)
    case None => s.(proxies := s.proxies + [Imported(s.nextProxyID, f, defaultGroup, now)],
                    nextProxyID := s.nextProxyID + 1)
    case Some(i) =>
      if i < |s.proxies| then s.(proxies := s.proxies[i := Refreshed(s.proxies[i], f, defaultGroup, now)]) else s
  }

  /** An automatic proxy whose last test failed or is missing. */
  predicate HasFailed(o: CleanupOptions, p: Proxy) {
    p.source.Auto? && o.deleteFailed && (p.lastTest.None? || !p.lastTest.value.success)
  }

  /** An automatic proxy whose last test was too slow. */
  predicate IsSlow(o: CleanupOptions, p: Proxy) {
    && p.source.Auto? && o.maxLatency > 0
    && p.lastTest.Some? && p.lastTest.value.success && p.lastTest.value.responseTime > o.maxLatency
  }

  predicate Keeps(o: CleanupOptions, p: Proxy) {
    !HasFailed(o, p) && !IsSlow(o, p)
  }

  function CountFailed(o: CleanupOptions, ps: seq<Proxy>): nat {
    if ps == [] then 0 else CountFailed(o, ps[..|ps| - 1]) + (if HasFailed(o, ps[|ps| - 1]) then 1 else 0)
  }

  function CountSlow(o: CleanupOptions, ps: seq<Proxy>): nat {
    if ps == [] then 0 else CountSlow(o, ps[..|ps| - 1]) + (if IsSlow(o, ps[|ps| - 1]) then 1 else 0)
  }

  function Keeping(o: CleanupOptions): Proxy -> bool {
    (p: Proxy) => Keeps(o, p)
  }

  /** cleanupImportedAutoProxies */
  function DoCleanup(s: Store, o: CleanupOptions, now: int): Store {
    if !o.enabled then s
    else s.(proxies := KeepIf(s.proxies, Keeping(o)), keys := Unbound(s.keys, DroppedIds(s.proxies, Keeping(o)), now))
  }

  // ---------- the runtime ----------

  function Disabled(f: Profile, now: int): Profile {
    var g := NormalProfile(f);
    if g.supported || !g.enabled then g else g.(enabled := false, updatedAt := now)
  }

  function DisableIncompatible(fs: seq<Profile>, now: int): (r: seq<Profile>)
    ensures |r| == |fs|
  {
    seq(|fs|, i requires 0 <= i < |fs| => Disabled(fs[i], now))
  }

  /** The mutator of syncCoreProfilesForRuntime. */
  function DoSyncRuntime(s: Store, now: int): Store {
    Sync(s.(profiles := DisableIncompatible(Allocate(s.profiles), now)), now)
  }

  // ---------- the transaction ----------

  function Mutate(s: Store, op: Op, now: int): Outcome {
    match op
    case CreateKey(request) => DoCreateKey(s, request, now)
    case ImportKeys(lines) => Ok(DoImportKeys(s, lines, now))
    case UpdateKey(id, edit) => DoUpdateKey(s, id, edit, now)
    case DeleteKey(id) => DoDeleteKey(s, id)
    case BindKeys(keyIDs, proxyID, group) => DoBindKeys(s, keyIDs, proxyID, group, now)
    case CreateProxy(template) => Ok(DoCreateProxy(s, template, now))
    case EditProxy(id, edit) => DoEditProxy(s, id, edit, now)
    case DeleteProxy(id) => DoDeleteProxy(s, id, now)
    case DeleteProxies(ids) => DoDeleteProxies(s, ids, now)
    case CreateProfile(profile) => Ok(DoCreateProfile(s, profile, now))
    case ImportProfiles(nodes) => Ok(DoImportProfiles(s, nodes, now))
    case EditProfile(id, edit) => DoEditProfile(s, id, edit, now)
    case DeleteProfiles(ids) => DoDeleteProfiles(s, ids, now)
    case UpsertFree(found, group) => Ok(DoUpsert(s, found, group, now))
    case Cleanup(options) => Ok(DoCleanup(s, options, now))
    case SyncRuntime => Ok(DoSyncRuntime(s, now))
  }

  function MaxProxyId(ps: seq<Proxy>): nat {
    if ps == [] then 0
    else if ps[|ps| - 1].id > MaxProxyId(ps[..|ps| - 1]) then ps[|ps| - 1].id else MaxProxyId(ps[..|ps| - 1])
  }

  function MaxKeyId(keys: seq<ApiKey>): nat {
    if keys == [] then 0
    else if keys[|keys| - 1].id > MaxKeyId(keys[..|keys| - 1]) then keys[|keys| - 1].id
    else MaxKeyId(keys[..|keys| - 1])
  }

  function MaxProfileId(fs: seq<Profile>): nat {
    if fs == [] then 0
    else if fs[|fs| - 1].id > MaxProfileId(fs[..|fs| - 1]) then fs[|fs| - 1].id else MaxProfileId(fs[..|fs| - 1])
  }

  /** normalizeStore: a counter that is missing starts behind the ids in use. */
  function Normalized(s: Store): Store {
    s.(profiles := Normal(s.profiles),
       nextKeyID := if s.nextKeyID == 0 then MaxKeyId(s.keys) + 1 else s.nextKeyID,
       nextProxyID := if s.nextProxyID == 0 then MaxProxyId(s.proxies) + 1 else s.nextProxyID,
       nextProfileID := if s.nextProfileID == 0 then MaxProfileId(s.profiles) + 1 else s.nextProfileID)
  }

  /** UpdateStore: the store after one operation. */
  function Commit(s: Store, op: Op, now: int): Store {
    match Mutate(s, op, now)
    case Ok(t) => Normalized(t)
    case Err(_) => s
  }

  datatype Timed = Timed(op: Op, now: int)

  function Run(s: Store, ops: seq<Timed>): Store {
    if ops == [] then s else Commit(Run(s, ops[..|ops| - 1]), ops[|ops| - 1].op, ops[|ops| - 1].now)
  }

  const EMPTY_STORE := Store([], [], [], 1, 1, 1)
}
