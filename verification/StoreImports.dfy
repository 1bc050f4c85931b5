/** What the two bulk imports do to the store: nothing is lost, and nothing is stored twice. */
module StoreImports {
  import opened Text
  import opened StoreData
  import opened CorePorts
  import opened StoreOps

  // ---------- keys ----------

  ghost predicate SecretsApart(keys: seq<ApiKey>, from: nat) {
    forall i, j :: 0 <= i < j < |keys| && from <= j ==> keys[i].secret != keys[j].secret
  }

  /** The stored keys stay in front as they are, and no imported key was stored before or is imported twice. */
  lemma {:induction false} ImportedKeysAreNew(s: Store, lines: seq<KeyLine>, now: int)
    ensures var t := DoImportKeys(s, lines, now);
      && |s.keys| <= |t.keys| && t.keys[..|s.keys|] == s.keys && SecretsApart(t.keys, |s.keys|)
      && t.nextKeyID == s.nextKeyID + (|t.keys| - |s.keys|)
      && t == s.(keys := t.keys, nextKeyID := t.nextKeyID)
  {
    if lines != [] {
      var n := |lines| - 1;
      ImportedKeysAreNew(s, lines[..n], now);
      var t, u := DoImportKeys(s, lines[..n], now), DoImportKeys(s, lines, now);
      if lines[n].KeyLine? && !HasSecret(t.keys, lines[n].secret) {
        assert forall i :: 0 <= i < |t.keys| ==> t.keys[i].secret != lines[n].secret;
        assert u.keys[..|s.keys|] == t.keys[..|s.keys|];
      }
    }
  }

  lemma OneKeyImported(s: Store, l: KeyLine, now: int)
    ensures forall k :: HasSecret(s.keys, k) ==> HasSecret(ImportKey(s, l, now).keys, k)
    ensures l.KeyLine? ==> HasSecret(ImportKey(s, l, now).keys, l.secret)
  {
    var t := ImportKey(s, l, now);
    forall k | HasSecret(s.keys, k) ensures HasSecret(t.keys, k) {
      var i :| 0 <= i < |s.keys| && s.keys[i].secret == k;
      assert t.keys[i].secret == k;
    }
    if l.KeyLine? && !HasSecret(s.keys, l.secret) {
      assert t.keys[|s.keys|].secret == l.secret;
    }
  }

  /** Afterwards the key of every line that could be read is stored. */
  lemma {:induction false} ReadableKeysAreStored(s: Store, lines: seq<KeyLine>, now: int, n: nat)
    requires n < |lines| && lines[n].KeyLine?
    ensures HasSecret(DoImportKeys(s, lines, now).keys, lines[n].secret)
  {
    var last := |lines| - 1;
    OneKeyImported(DoImportKeys(s, lines[..last], now), lines[last], now);
    if n < last {
      ReadableKeysAreStored(s, lines[..last], now, n);
    }
  }

  /** "NVIDIA-" and the id in at least four digits. */
  ghost predicate NamedAfter(name: string, id: nat) {
    && |name| >= 11 && name[..7] == "NVIDIA-" && AllDigits(name[7..]) && Read(name[7..]) == id
    && (|name| > 11 ==> name[7] != '0')
  }

  lemma DefaultNameMeaning(id: nat)
    ensures NamedAfter(DefaultKeyName(id), id)
  {
    var digits := Decimal(id);
    var zeros := if |digits| < 4 then "0000"[|digits|..] else "";
    DecimalReads(id);
    LeadingZeros(zeros, digits);
    NumberBehind("NVIDIA-", zeros, digits);
  }

  lemma NumberBehind(head: string, zeros: string, digits: string)
    ensures (head + zeros + digits)[..|head|] == head && (head + zeros + digits)[|head|..] == zeros + digits
  {
  }

  /** A key that one of the lines asks for, at rest: active, unbound, and not only for probes. */
  ghost predicate KeyOfLine(k: ApiKey, l: KeyLine, now: int) {
    && l.KeyLine? && k.secret == l.secret && k.weight == l.weight
    && (if l.name.Some? then k.name == l.name.value else NamedAfter(k.name, k.id))
    && k.status == KeyActive && !k.probeOnly && k.proxyID == 0 && k.updatedAt == now
  }

  ghost predicate KeyOfLines(k: ApiKey, lines: seq<KeyLine>, now: int) {
    exists i :: 0 <= i < |lines| && KeyOfLine(k, lines[i], now)
  }

  lemma MoreLines(k: ApiKey, lines: seq<KeyLine>, now: int)
    requires lines != [] && KeyOfLines(k, lines[..|lines| - 1], now)
    ensures KeyOfLines(k, lines, now)
  {
    var i :| 0 <= i < |lines| - 1 && KeyOfLine(k, lines[..|lines| - 1][i], now);
    assert KeyOfLine(k, lines[i], now);
  }

  /** Every imported key is what a line asks for, and has the next id in turn. */
  lemma {:induction false} ImportedKeysAreAsked(s: Store, lines: seq<KeyLine>, now: int, j: nat)
    requires |s.keys| <= j < |DoImportKeys(s, lines, now).keys|
    ensures var k := DoImportKeys(s, lines, now).keys[j];
      k.id == s.nextKeyID + (j - |s.keys|) && KeyOfLines(k, lines, now)
  {
    var n := |lines| - 1;
    var before := DoImportKeys(s, lines[..n], now);
    ImportedKeysAreNew(s, lines[..n], now);
    if j < |before.keys| {
      ImportedKeysAreAsked(s, lines[..n], now, j);
      MoreLines(before.keys[j], lines, now);
    } else {
      DefaultNameMeaning(before.nextKeyID);
      assert KeyOfLine(DoImportKeys(s, lines, now).keys[j], lines[n], now);
    }
  }

  // ---------- profiles ----------

  /** Every node's profile has the fingerprint of the node. */
  predicate Faithful(nodes: seq<NodeLine>) {
    forall n :: 0 <= n < |nodes| && nodes[n].profile.Some? ==> nodes[n].profile.value.endpoint == nodes[n].endpoint
  }

  ghost predicate EndpointsApart(fs: seq<Profile>, from: nat) {
    forall i, j :: 0 <= i < j < |fs| && from <= j ==> fs[i].endpoint != fs[j].endpoint
  }

  ghost predicate KnownAre(known: set<string>, fs: seq<Profile>) {
    forall e :: e in known <==> HasEndpoint(fs, e)
  }

  predicate HasEndpoint(fs: seq<Profile>, e: string) {
    exists i :: 0 <= i < |fs| && fs[i].endpoint == e
  }

  lemma EndpointAppended(fs: seq<Profile>, f: Profile, known: set<string>)
    requires KnownAre(known, fs)
    ensures KnownAre(known + {f.endpoint}, fs + [f])
  {
    forall e ensures e in known + {f.endpoint} <==> HasEndpoint(fs + [f], e) {
      if HasEndpoint(fs, e) {
        var i :| 0 <= i < |fs| && fs[i].endpoint == e;
        assert (fs + [f])[i].endpoint == e;
      }
      assert (fs + [f])[|fs|].endpoint == f.endpoint;
    }
  }

  lemma {:induction false} NodesImported(st: Importing, nodes: seq<NodeLine>, now: int)
    requires Faithful(nodes) && KnownAre(st.known, st.store.profiles)
    ensures var t, fs := ImportNodes(st, nodes, now), st.store.profiles;
      && KnownAre(t.known, t.store.profiles)
      && |fs| <= |t.store.profiles| && t.store.profiles[..|fs|] == fs && EndpointsApart(t.store.profiles, |fs|)
      && t.store.nextProfileID == st.store.nextProfileID + (|t.store.profiles| - |fs|)
      && t.store == st.store.(profiles := t.store.profiles, nextProfileID := t.store.nextProfileID)
  {
    if nodes != [] {
      var n := |nodes| - 1;
      NodesImported(st, nodes[..n], now);
      var before, l := ImportNodes(st, nodes[..n], now), nodes[n];
      if l.endpoint !in before.known && l.profile.Some? {
        var fs := before.store.profiles;
        var added := DoCreateProfile(before.store, l.profile.value, now).profiles;
        EndpointAppended(fs, added[|fs|], before.known);
        assert forall i :: 0 <= i < |fs| ==> fs[i].endpoint != l.endpoint;
        assert added[..|st.store.profiles|] == fs[..|st.store.profiles|];
      }
    }
  }

  /**
   The stored profiles stay in front, with ports allocated and otherwise as they are; no imported
   profile connects to where a stored or another imported one does.
   */
  lemma ImportedProfilesAreNew(s: Store, nodes: seq<NodeLine>, now: int)
    requires Faithful(nodes)
    ensures var t, fs := DoImportProfiles(s, nodes, now), Allocate(s.profiles);
      && |fs| <= |t.profiles| && t.profiles[..|fs|] == fs && EndpointsApart(t.profiles, |fs|)
      && t.nextProfileID == s.nextProfileID + (|t.profiles| - |fs|)
      && t == s.(profiles := t.profiles, nextProfileID := t.nextProfileID)
  {
    NodesImported(ImportStart(s), nodes, now);
  }

  /** Afterwards every valid node is known. */
  lemma {:induction false} ValidNodesAreKnown(st: Importing, nodes: seq<NodeLine>, now: int, n: nat)
    requires n < |nodes| && nodes[n].profile.Some?
    ensures nodes[n].endpoint in ImportNodes(st, nodes, now).known
  {
    if n < |nodes| - 1 {
      ValidNodesAreKnown(st, nodes[..|nodes| - 1], now, n);
    }
  }

  /** ... and so, if its profile is as it says, a stored profile connects to where it does. */
  lemma ValidNodesAreStored(s: Store, nodes: seq<NodeLine>, now: int, n: nat)
    requires Faithful(nodes) && n < |nodes| && nodes[n].profile.Some?
    ensures HasEndpoint(DoImportProfiles(s, nodes, now).profiles, nodes[n].endpoint)
  {
    NodesImported(ImportStart(s), nodes, now);
    ValidNodesAreKnown(ImportStart(s), nodes, now, n);
  }

  /** A profile that one of the nodes brings; it has no proxy yet. */
  ghost predicate ProfileOfNodes(f: Profile, nodes: seq<NodeLine>, now: int) {
    exists i :: 0 <= i < |nodes| && ProfileOfNode(f, nodes[i], now)
  }

  ghost predicate ProfileOfNode(f: Profile, l: NodeLine, now: int) {
    l.profile.Some? && f == l.profile.value.(id := f.id, managedProxyID := 0, updatedAt := now)
  }

  lemma MoreNodes(f: Profile, nodes: seq<NodeLine>, now: int)
    requires nodes != [] && ProfileOfNodes(f, nodes[..|nodes| - 1], now)
    ensures ProfileOfNodes(f, nodes, now)
  {
    var i :| 0 <= i < |nodes| - 1 && ProfileOfNode(f, nodes[..|nodes| - 1][i], now);
    assert ProfileOfNode(f, nodes[i], now);
  }

  lemma {:induction false} NodesAreAsked(st: Importing, nodes: seq<NodeLine>, now: int, j: nat)
    requires Faithful(nodes) && KnownAre(st.known, st.store.profiles)
    requires |st.store.profiles| <= j < |ImportNodes(st, nodes, now).store.profiles|
    ensures var f := ImportNodes(st, nodes, now).store.profiles[j];
      f.id == st.store.nextProfileID + (j - |st.store.profiles|) && ProfileOfNodes(f, nodes, now)
  {
    var n := |nodes| - 1;
    var before := ImportNodes(st, nodes[..n], now).store;
    NodesImported(st, nodes[..n], now);
    if j < |before.profiles| {
      NodesAreAsked(st, nodes[..n], now, j);
      MoreNodes(before.profiles[j], nodes, now);
    } else {
      assert ProfileOfNode(ImportNodes(st, nodes, now).store.profiles[j], nodes[n], now);
    }
  }

  /** Every imported profile is what a node brings, has the next id in turn, and no proxy yet. */
  lemma ImportedProfilesAreAsked(s: Store, nodes: seq<NodeLine>, now: int, j: nat)
    requires Faithful(nodes) && |s.profiles| <= j < |DoImportProfiles(s, nodes, now).profiles|
    ensures var f := DoImportProfiles(s, nodes, now).profiles[j];
      f.id == s.nextProfileID + (j - |s.profiles|) && ProfileOfNodes(f, nodes, now)
  {
    NodesAreAsked(ImportStart(s), nodes, now, j);
  }
}
