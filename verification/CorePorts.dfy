/**
 The allocation of local ports to core profiles.  A first pass notes who claims which port, the
 last claimant winning; a second pass gives every profile that does not own its port a free one.
 */
module CorePorts {
  import opened StoreData

  // ---------- what the two passes do ----------

  function Normal(ps: seq<Profile>): (r: seq<Profile>)
    ensures |r| == |ps|
  {
    seq(|ps|, i requires 0 <= i < |ps| => NormalProfile(ps[i]))
  }

  /** The owner of every claimed port: the last profile that claims it. */
  function Claims(ps: seq<Profile>): map<int, nat> {
    if ps == [] then map[]
    else
      var before, last := Claims(ps[..|ps| - 1]), ps[|ps| - 1];
      if last.localPort > 0 then before[last.localPort := last.id] else before
  }

  /** The first port from `next` on that is not in use. */
  function FindFree(used: map<int, nat>, next: int): int
    decreases UsedFrom(used, next)
  {
    if next !in used then next
    else
      FewerAhead(used, next);
      FindFree(used, next + 1)
  }

  /** The ports in use from `next` on; the search runs through them. */
  function UsedFrom(used: map<int, nat>, next: int): set<int> {
    set k | k in used.Keys && k >= next
  }

  lemma FewerAhead(used: map<int, nat>, next: int)
    requires next in used
    ensures UsedFrom(used, next + 1) < UsedFrom(used, next)
  {
    assert next in UsedFrom(used, next) && next !in UsedFrom(used, next + 1);
  }

  /** The second pass between two profiles. */
  datatype Passing = Passing(profiles: seq<Profile>, used: map<int, nat>, next: int)

  predicate OwnsPort(s: Passing, i: nat)
    requires i < |s.profiles|
  {
    var port := s.profiles[i].localPort;
    port > 0 && (port !in s.used || s.used[port] == 0 || s.used[port] == s.profiles[i].id)
  }

  function PassOne(s: Passing, i: nat): Passing
    requires i < |s.profiles|
  {
    if OwnsPort(s, i) then s
    else
      var port := FindFree(s.used, s.next);
      Passing(s.profiles[i := s.profiles[i].(localPort := port)], s.used[port := s.profiles[i].id], port + 1)
  }

  function Pass(ps: seq<Profile>, n: nat): (s: Passing)
    requires n <= |ps|
    ensures |s.profiles| == |ps|
  {
    if n == 0 then Passing(ps, Claims(ps), LOCAL_PORT_START) else PassOne(Pass(ps, n - 1), n - 1)
  }

  /** normalizeAndAllocateCoreProfiles */
  function Allocate(ps: seq<Profile>): (r: seq<Profile>)
    ensures |r| == |ps|
  {
    Pass(Normal(ps), |ps|).profiles
  }

  // ---------- the same, in place ----------

  method FirstPass(items: array<Profile>) returns (used: map<int, nat>)
    modifies items
    ensures items[..] == Normal(old(items[..])) && used == Claims(items[..])
  {
    used := map[];
    for i := 0 to items.Length
      invariant forall j :: 0 <= j < i ==> items[j] == NormalProfile(old(items[j]))
      invariant forall j :: i <= j < items.Length ==> items[j] == old(items[j])
      invariant used == Claims(items[..i])
    {
      ghost var before := items[..i];
      items[i] := NormalProfile(items[i]);
      if items[i].localPort > 0 {
        used := used[items[i].localPort := items[i].id];
      }
      assert items[..i + 1][..i] == before;
    }
    assert items[..items.Length] == items[..];
  }

  method NextFree(used: map<int, nat>, start: int) returns (port: int)
    requires start >= LOCAL_PORT_START
    ensures port == FindFree(used, start) && port >= start
  {
    port := start;
    while port in used
      invariant port >= start && FindFree(used, port) == FindFree(used, start)
      decreases UsedFrom(used, port)
    {
      FewerAhead(used, port);
      port := port + 1;
    }
  }

  method AllocateInPlace(items: array<Profile>)
    modifies items
    ensures items[..] == Allocate(old(items[..]))
  {
    var used: map<int, nat> := FirstPass(items);
    ghost var ps := items[..];
    var nextPort := LOCAL_PORT_START;
    for i := 0 to items.Length
      invariant Passing(items[..], used, nextPort) == Pass(ps, i)
      invariant nextPort >= LOCAL_PORT_START
    {
      var current := items[i].localPort;
      if current > 0 {
        var owner := if current in used then used[current] else 0;
        if owner == 0 || owner == items[i].id {
          continue;
        }
      }
      ghost var s := Passing(items[..], used, nextPort);
      var port := NextFree(used, nextPort);
      items[i] := items[i].(localPort := port);
      used := used[port := items[i].id];
      nextPort := port + 1;
      assert items[..] == s.profiles[i := s.profiles[i].(localPort := port)];
    }
  }

  // ---------- counting ----------

  lemma SomeMember<T>(s: set<T>) returns (x: T)
    requires s != {}
    ensures x in s
  {
    x :| x in s;
  }

  /** An injective map on a set of keys has at least as many values. */
  lemma {:induction false} InjectiveCount(keys: set<int>, m: map<int, nat>, values: set<nat>)
    requires keys <= m.Keys && forall k :: k in keys ==> m[k] in values
    requires forall j, k :: j in keys && k in keys && m[j] == m[k] ==> j == k
    ensures |keys| <= |values|
  {
    if keys != {} {
      var k := SomeMember(keys);
      InjectiveCount(keys - {k}, m, values - {m[k]});
    }
  }

  lemma {:induction false} IntervalCount(lo: int, hi: int, s: set<int>)
    requires lo <= hi && forall k :: lo <= k < hi ==> k in s
    ensures hi - lo <= |s|
    decreases hi - lo
  {
    if lo < hi {
      IntervalCount(lo, hi - 1, s - {hi - 1});
    }
  }

  function Ids(ps: seq<Profile>): set<nat> {
    set i | 0 <= i < |ps| :: ps[i].id
  }

  lemma {:induction false} IdsCount(ps: seq<Profile>)
    ensures |Ids(ps)| <= |ps|
  {
    if ps != [] {
      var n := |ps| - 1;
      IdsCount(ps[..n]);
      assert Ids(ps) == Ids(ps[..n]) + {ps[n].id} by {
        forall id | id in Ids(ps) ensures id in Ids(ps[..n]) + {ps[n].id} {
          var i :| 0 <= i < |ps| && ps[i].id == id;
          assert i < n ==> ps[..n][i].id == id;
        }
        forall id | id in Ids(ps[..n]) ensures id in Ids(ps) {
          var i :| 0 <= i < n && ps[..n][i].id == id;
          assert ps[i].id == id;
        }
      }
    }
  }

  // ---------- the invariant of the second pass ----------

  ghost predicate DistinctIds(ps: seq<Profile>) {
    && (forall i :: 0 <= i < |ps| ==> ps[i].id != 0)
    && forall i, j :: 0 <= i < j < |ps| ==> ps[i].id != ps[j].id
  }

  /** The profile is the last one that claims its port. */
  ghost predicate LastClaimant(ps: seq<Profile>, i: nat)
    requires i < |ps|
  {
    ps[i].localPort > 0 && forall j :: i < j < |ps| ==> ps[j].localPort != ps[i].localPort
  }

  /** A used port belongs to a profile that has it. */
  ghost predicate OwnedBy(s: Passing, port: int, i: nat) {
    port > 0 && i < |s.profiles| && port in s.used && s.used[port] == s.profiles[i].id
    && s.profiles[i].localPort == port
  }

  ghost predicate Owned(s: Passing, port: int) {
    exists i: nat :: OwnedBy(s, port, i)
  }

  ghost predicate PassInv(ps: seq<Profile>, s: Passing, n: nat) {
    && n <= |ps| == |s.profiles|
    && s.next >= LOCAL_PORT_START
    && (forall i :: 0 <= i < |ps| ==> s.profiles[i] == ps[i].(localPort := s.profiles[i].localPort))
    && (forall i :: n <= i < |ps| ==> s.profiles[i] == ps[i])
    && (forall port :: port in s.used ==> Owned(s, port))
    && (forall i :: 0 <= i < n ==> OwnedBy(s, s.profiles[i].localPort, i))
    && (forall port :: port in Claims(ps) ==> port in s.used && s.used[port] == Claims(ps)[port])
    && (forall port :: LOCAL_PORT_START <= port < s.next ==> port in s.used)
  }

  /** The last profile that claims the port, and so the one that is noted for it. */
  ghost predicate ClaimedBy(ps: seq<Profile>, port: int, i: int) {
    && 0 <= i < |ps| && ps[i].localPort == port && LastClaimant(ps, i)
    && port in Claims(ps) && Claims(ps)[port] == ps[i].id
  }

  lemma {:induction false} ClaimantOf(ps: seq<Profile>, port: int) returns (i: nat)
    requires port in Claims(ps)
    ensures ClaimedBy(ps, port, i)
  {
    var n := |ps| - 1;
    if port == ps[n].localPort && port > 0 {
      return n;
    }
    i := ClaimantOf(ps[..n], port);
    assert forall j :: 0 <= j < n ==> ps[..n][j] == ps[j];
  }

  lemma {:induction false} PortClaimed(ps: seq<Profile>, i: nat)
    requires i < |ps| && ps[i].localPort > 0
    ensures ps[i].localPort in Claims(ps)
  {
    if i < |ps| - 1 {
      PortClaimed(ps[..|ps| - 1], i);
    }
  }

  lemma ClaimsMeaning(ps: seq<Profile>)
    ensures forall i :: 0 <= i < |ps| && ps[i].localPort > 0 ==> ps[i].localPort in Claims(ps)
    ensures forall port :: port in Claims(ps) ==> exists i :: ClaimedBy(ps, port, i)
  {
    forall i | 0 <= i < |ps| && ps[i].localPort > 0 ensures ps[i].localPort in Claims(ps) {
      PortClaimed(ps, i);
    }
    forall port | port in Claims(ps) ensures exists i :: ClaimedBy(ps, port, i) {
      var i := ClaimantOf(ps, port);
    }
  }

  lemma PassStarts(ps: seq<Profile>)
    ensures PassInv(ps, Pass(ps, 0), 0)
  {
    var s := Pass(ps, 0);
    forall port | port in s.used ensures Owned(s, port) {
      var i := ClaimantOf(ps, port);
      assert OwnedBy(s, port, i);
    }
  }

  /** The search stops at the first free port: everything from `next` up to it is in use. */
  lemma {:induction false} FindFreeMeaning(used: map<int, nat>, next: int)
    ensures var port := FindFree(used, next);
      port >= next && port !in used && forall k :: next <= k < port ==> k in used
    decreases UsedFrom(used, next)
  {
    if next in used {
      FewerAhead(used, next);
      FindFreeMeaning(used, next + 1);
    }
  }

  /** A profile that owns no port leaves room: the ports in use belong to the other profiles. */
  lemma OthersOwn(ps: seq<Profile>, s: Passing, i: nat)
    requires DistinctIds(ps) && PassInv(ps, s, i) && i < |ps| && !OwnsPort(s, i)
    ensures |s.used| < |ps|
  {
    var others := Ids(ps) - {ps[i].id};
    IdsCount(ps);
    assert ps[i].id in Ids(ps);
    assert |s.used| == |s.used.Keys|;
    forall port | port in s.used.Keys ensures s.used[port] in others {
      assert Owned(s, port);
      var j: nat :| OwnedBy(s, port, j);
      assert j != i;
      assert ps[j].id in Ids(ps);
    }
    forall p, q | p in s.used.Keys && q in s.used.Keys && s.used[p] == s.used[q] ensures p == q {
      assert Owned(s, p) && Owned(s, q);
      var j: nat :| OwnedBy(s, p, j);
      var k: nat :| OwnedBy(s, q, k);
    }
    InjectiveCount(s.used.Keys, s.used, others);
  }

  /** So a new port is at most 21000 + n for n profiles. */
  lemma NewPortBound(ps: seq<Profile>, s: Passing, i: nat)
    requires DistinctIds(ps) && PassInv(ps, s, i) && i < |ps| && !OwnsPort(s, i)
    ensures LOCAL_PORT_START <= FindFree(s.used, s.next) < LOCAL_PORT_START + |ps|
  {
    OthersOwn(ps, s, i);
    FindFreeMeaning(s.used, s.next);
    IntervalCount(LOCAL_PORT_START, FindFree(s.used, s.next), s.used.Keys);
    assert |s.used| == |s.used.Keys|;
  }

  lemma OwnerStays(ps: seq<Profile>, s: Passing, i: nat)
    requires DistinctIds(ps) && PassInv(ps, s, i) && i < |ps| && OwnsPort(s, i)
    ensures PassInv(ps, PassOne(s, i), i + 1)
  {
    PortClaimed(ps, i);
    assert Owned(s, s.profiles[i].localPort);
    assert OwnedBy(s, s.profiles[i].localPort, i);
  }

  lemma OtherMoves(ps: seq<Profile>, s: Passing, i: nat)
    requires DistinctIds(ps) && PassInv(ps, s, i) && i < |ps| && !OwnsPort(s, i)
    ensures PassInv(ps, PassOne(s, i), i + 1)
  {
    FindFreeMeaning(s.used, s.next);
    var t := PassOne(s, i);
    forall port | port in t.used ensures Owned(t, port) {
      if port == t.profiles[i].localPort {
        assert OwnedBy(t, port, i);
      } else {
        assert Owned(s, port);
        var j: nat :| OwnedBy(s, port, j);
        assert OwnedBy(t, port, j);
      }
    }
    forall j | 0 <= j < i + 1 ensures OwnedBy(t, t.profiles[j].localPort, j) {
      if j < i {
        assert OwnedBy(s, s.profiles[j].localPort, j);
      }
    }
  }

  lemma {:induction false} PassKeeps(ps: seq<Profile>, n: nat)
    requires DistinctIds(ps) && n <= |ps|
    ensures PassInv(ps, Pass(ps, n), n)
  {
    if n == 0 {
      PassStarts(ps);
    } else {
      PassKeeps(ps, n - 1);
      var s := Pass(ps, n - 1);
      if OwnsPort(s, n - 1) {
        OwnerStays(ps, s, n - 1);
      } else {
        OtherMoves(ps, s, n - 1);
      }
    }
  }

  // ---------- what the allocation achieves ----------

  lemma NormalKeepsIds(ps: seq<Profile>)
    requires DistinctIds(ps)
    ensures DistinctIds(Normal(ps))
  {
    assert forall i :: 0 <= i < |ps| ==> Normal(ps)[i].id == ps[i].id;
  }

  lemma {:induction false} PassOnly(ps: seq<Profile>, n: nat, i: nat)
    requires n <= |ps| && i < |ps|
    ensures Pass(ps, n).profiles[i].localPort == if i < n then Pass(ps, i + 1).profiles[i].localPort
            else ps[i].localPort
  {
    if n > 0 && i + 1 != n {
      PassOnly(ps, n - 1, i);
    }
  }

  lemma OwnsIffLast(ps: seq<Profile>, i: nat)
    requires DistinctIds(ps) && i < |ps|
    ensures OwnsPort(Pass(ps, i), i) <==> LastClaimant(ps, i)
  {
    ClaimsMeaning(ps);
    PassKeeps(ps, i);
    var port := ps[i].localPort;
    if port > 0 {
      var k :| ClaimedBy(ps, port, k);
      assert k >= i;
    }
  }

  /** Only the port of a profile is ever changed. */
  ghost predicate OnlyPorts(ps: seq<Profile>, r: seq<Profile>) {
    |r| == |ps| && forall i :: 0 <= i < |ps| ==> r[i] == ps[i].(localPort := r[i].localPort)
  }

  ghost predicate DistinctPorts(r: seq<Profile>) {
    forall i, j :: 0 <= i < j < |r| ==> r[i].localPort != r[j].localPort
  }

  /**
   The allocation, for profiles with distinct ids: every profile ends with a positive port of its
   own; the last claimant of a port keeps it, and everybody else gets one of the first n ports
   from 21001 on.  Nothing but ports changes.
   */
  lemma Allocation(ps: seq<Profile>)
    requires DistinctIds(ps)
    ensures var r := Allocate(ps);
      && OnlyPorts(ps, r) && DistinctPorts(r)
      && (forall i :: 0 <= i < |ps| ==> r[i].localPort > 0)
      && forall i :: 0 <= i < |ps| ==>
           if LastClaimant(ps, i) then r[i].localPort == ps[i].localPort
           else LOCAL_PORT_START <= r[i].localPort < LOCAL_PORT_START + |ps| && r[i].localPort != ps[i].localPort
  {
    var q := Normal(ps);
    NormalKeepsIds(ps);
    PassKeeps(q, |q|);
    var s := Pass(q, |q|);
    forall i | 0 <= i < |ps|
      ensures s.profiles[i].localPort > 0
      ensures if LastClaimant(ps, i) then s.profiles[i].localPort == ps[i].localPort
              else LOCAL_PORT_START <= s.profiles[i].localPort < LOCAL_PORT_START + |ps|
                   && s.profiles[i].localPort != ps[i].localPort
    {
      assert OwnedBy(s, s.profiles[i].localPort, i);
      OwnerOrMover(ps, i);
    }
    forall i, j | 0 <= i < j < |ps| ensures s.profiles[i].localPort != s.profiles[j].localPort {
      assert OwnedBy(s, s.profiles[i].localPort, i) && OwnedBy(s, s.profiles[j].localPort, j);
    }
  }

  lemma NormalClaimant(ps: seq<Profile>, i: nat)
    requires i < |ps|
    ensures LastClaimant(Normal(ps), i) <==> LastClaimant(ps, i)
  {
    var q := Normal(ps);
    assert q[i] == NormalProfile(ps[i]);
    if ps[i].localPort > 0 {
      forall j | i < j < |ps| ensures q[j].localPort != q[i].localPort <==> ps[j].localPort != ps[i].localPort {
        assert q[j] == NormalProfile(ps[j]);
      }
    }
  }

  lemma OwnerOrMover(ps: seq<Profile>, i: nat)
    requires DistinctIds(ps) && i < |ps|
    ensures var port := Allocate(ps)[i].localPort;
      if LastClaimant(ps, i) then port == ps[i].localPort
      else LOCAL_PORT_START <= port < LOCAL_PORT_START + |ps| && port != ps[i].localPort
  {
    var q := Normal(ps);
    NormalKeepsIds(ps);
    NormalClaimant(ps, i);
    PassOnly(q, |q|, i);
    PassKeeps(q, i);
    OwnsIffLast(q, i);
    if !LastClaimant(q, i) {
      NewPortBound(q, Pass(q, i), i);
      FindFreeMeaning(Pass(q, i).used, Pass(q, i).next);
      ClaimsMeaning(q);
    }
  }

  /** Allocating again changes nothing. */
  lemma AllocationIdempotent(ps: seq<Profile>)
    requires DistinctIds(ps)
    ensures Allocate(Allocate(ps)) == Allocate(ps)
  {
    var r := Allocate(ps);
    Allocation(ps);
    assert DistinctIds(r);
    Allocation(r);
    var t := Allocate(r);
    forall i | 0 <= i < |r| ensures t[i] == r[i] {
      assert LastClaimant(r, i);
    }
  }
}
