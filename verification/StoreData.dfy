/**
 The stored records that refer to each other: upstream keys point to proxies, and core profiles
 and the proxies that the gateway manages for them point to each other.  Text fields are taken
 to be normalized already (trimmed, and lower-case where the gateway lowers them).
 */
module StoreData {
  import opened Text

  datatype TestRecord = TestRecord(success: bool, responseTime: int, testedAt: int)

  datatype Source = Manual | Auto | Managed

  datatype Proxy = Proxy(
    id: nat,
    name: string,
    group: string,
    country: string,
    source: Source,
    managedBy: string,
    managedRefID: nat,
    kind: string,
    enabled: bool,
    host: string,
    port: int,
    lastTest: Option<TestRecord>,
    history: seq<TestRecord>,
    updatedAt: int)

  /**
   `endpoint` is the fingerprint of the fields that say where a profile connects to; `supported` is
   false for a profile that the core cannot run.
   */
  datatype Profile = Profile(
    id: nat,
    name: string,
    endpoint: string,
    enabled: bool,
    localPort: int,
    managedProxyID: nat,
    supported: bool,
    updatedAt: int)

  datatype KeyStatus = KeyActive | KeyDisabled | KeyCooling | KeyDead

  /** `secret` is the key itself, which is stored encrypted. */
  datatype ApiKey = ApiKey(
    id: nat,
    name: string,
    secret: string,
    weight: real,
    status: KeyStatus,
    probeOnly: bool,
    proxyID: nat,
    updatedAt: int)

  datatype Store = Store(
    keys: seq<ApiKey>,
    proxies: seq<Proxy>,
    profiles: seq<Profile>,
    nextKeyID: nat,
    nextProxyID: nat,
    nextProfileID: nat)

  const MANAGED_BY_XRAY := "xray"
  const LOCAL_HOST := "127.0.0.1"
  const LOCAL_PORT_START := 21001

  /** The part of NormalizeCoreProfile that is not about text. */
  function NormalProfile(p: Profile): Profile {
    p.(localPort := if p.localPort < 0 then 0 else p.localPort)
  }

  predicate ManagedByXray(p: Proxy) {
    p.managedBy == MANAGED_BY_XRAY
  }

  predicate HasId(ps: seq<Proxy>, id: nat) {
    exists i :: 0 <= i < |ps| && ps[i].id == id
  }

  // ---------- unbinding keys ----------

  function UnboundKey(k: ApiKey, removed: set<nat>, now: int): ApiKey {
    if k.proxyID in removed then k.(proxyID := 0, updatedAt := now) else k
  }

  function Unbound(keys: seq<ApiKey>, removed: set<nat>, now: int): (r: seq<ApiKey>)
    ensures |r| == |keys|
  {
    seq(|keys|, i requires 0 <= i < |keys| => UnboundKey(keys[i], removed, now))
  }

  /** How many keys are bound to proxies that are removed. */
  function CountBound(keys: seq<ApiKey>, removed: set<nat>): nat {
    if keys == [] then 0
    else CountBound(keys[..|keys| - 1], removed) + (if keys[|keys| - 1].proxyID in removed then 1 else 0)
  }

  // ---------- the invariant ----------

  /** Proxy ids are positive, different, and below the next id. */
  ghost predicate GoodProxyIds(ps: seq<Proxy>, next: nat) {
    && (forall i :: 0 <= i < |ps| ==> 0 < ps[i].id < next)
    && forall i, j :: 0 <= i < j < |ps| ==> ps[i].id != ps[j].id
  }

  ghost predicate GoodKeyIds(keys: seq<ApiKey>, next: nat) {
    && (forall i :: 0 <= i < |keys| ==> 0 < keys[i].id < next)
    && forall i, j :: 0 <= i < j < |keys| ==> keys[i].id != keys[j].id
  }

  ghost predicate GoodProfileIds(fs: seq<Profile>, next: nat) {
    && (forall i :: 0 <= i < |fs| ==> 0 < fs[i].id < next)
    && forall i, j :: 0 <= i < j < |fs| ==> fs[i].id != fs[j].id
  }

  predicate Bound(k: ApiKey, ps: seq<Proxy>) {
    k.proxyID == 0 || exists i :: 0 <= i < |ps| && ps[i].id == k.proxyID
  }

  /** Every key is unbound or bound to a stored proxy. */
  ghost predicate KeysBound(keys: seq<ApiKey>, ps: seq<Proxy>) {
    forall i :: 0 <= i < |keys| ==> Bound(keys[i], ps)
  }

  /** A profile's link leads to the proxy that is managed for it, or nowhere. */
  ghost predicate SoundLink(f: Profile, ps: seq<Proxy>, next: nat) {
    && f.managedProxyID < next
    && forall i :: 0 <= i < |ps| && ps[i].id == f.managedProxyID ==> ManagedByXray(ps[i]) && ps[i].managedRefID == f.id
  }

  ghost predicate SoundLinks(fs: seq<Profile>, ps: seq<Proxy>, next: nat) {
    forall i :: 0 <= i < |fs| ==> SoundLink(fs[i], ps, next)
  }

  /** At most one proxy is managed for each profile. */
  ghost predicate OneEach(ps: seq<Proxy>) {
    forall i, j :: 0 <= i < j < |ps| && ManagedByXray(ps[i]) && ManagedByXray(ps[j]) ==>
        ps[i].managedRefID != ps[j].managedRefID
  }

  /** Managed proxies are marked as such, and nothing but the core manages proxies. */
  ghost predicate Marked(ps: seq<Proxy>) {
    forall i :: 0 <= i < |ps| ==> if ManagedByXray(ps[i]) then ps[i].source == Managed else ps[i].managedBy == ""
  }

  ghost predicate Inv(s: Store) {
    && GoodKeyIds(s.keys, s.nextKeyID) && GoodProxyIds(s.proxies, s.nextProxyID)
    && GoodProfileIds(s.profiles, s.nextProfileID)
    && s.nextKeyID > 0 && s.nextProxyID > 0 && s.nextProfileID > 0
    && KeysBound(s.keys, s.proxies)
    && SoundLinks(s.profiles, s.proxies, s.nextProxyID)
    && OneEach(s.proxies) && Marked(s.proxies)
  }
}
