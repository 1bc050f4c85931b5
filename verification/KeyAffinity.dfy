/**
 Conversations stick to keys: a request first tries the key that its conversation is bound to,
 and then whatever key the scheduler gives it.
 */
module KeyAffinity {
  import opened Text
  import opened KeyScheduler

  /** The binding of a conversation, if it has one; keys are kept trimmed and not empty. */
  function BoundKey(bindings: map<string, string>, id: string): Option<string> {
    if TrimSpace(id) != "" && TrimSpace(id) in bindings && TrimSpace(bindings[TrimSpace(id)]) != ""
    then Some(TrimSpace(bindings[TrimSpace(id)])) else None
  }

  /** The pool after `n` acquires at these times. */
  function Polled(p: Pool, cap: int, times: nat -> int, n: nat): Pool {
    if n == 0 then p else Apply(Polled(p, cap, times, n - 1), OpAcquire(cap, times(n - 1)))
  }

  function AnswerAt(p: Pool, cap: int, times: nat -> int, n: nat): string {
    AcquiredName(Polled(p, cap, times, n), cap, times(n))
  }

  ghost predicate NoAnswer(p: Pool, cap: int, times: nat -> int, polls: nat) {
    forall n :: 0 <= n < polls ==> AnswerAt(p, cap, times, n) == ""
  }

  /** The first answer that names a key, or "" if none of the polls brings one. */
  ghost predicate FirstAnswer(p: Pool, cap: int, times: nat -> int, polls: nat, key: string) {
    if key == "" then NoAnswer(p, cap, times, polls)
    else exists n: nat :: n < polls && AnswerAt(p, cap, times, n) == key && NoAnswer(p, cap, times, n)
  }

  /** The polls have come this far without an answer. */
  ghost predicate StillWaiting(p: Pool, q: Pool, cap: int, times: nat -> int, n: nat) {
    q == Polled(p, cap, times, n) && NoAnswer(p, cap, times, n)
  }

  lemma WaitOn(p: Pool, q: Pool, cap: int, times: nat -> int, n: nat, r: Pool, key: string)
    requires StillWaiting(p, q, cap, times, n)
    requires r == Apply(q, OpAcquire(cap, times(n))) && key == AcquiredName(q, cap, times(n))
    ensures key == "" ==> StillWaiting(p, r, cap, times, n + 1)
    ensures key != "" ==> forall polls: nat :: n < polls ==> FirstAnswer(p, cap, times, polls, key)
    ensures TookOne(p, r, key)
  {
    NothingTaken(p, cap, times, n);
    OneMoreTaken(p, q, cap, times(n));
    assert AnswerAt(p, cap, times, n) == key;
  }

  /** The pool that the polls begin with: the bound key, if there is one, has been asked for in vain. */
  function AfterRefusal(p: Pool, preferred: Option<string>, rawCap: int, now: int): Pool {
    match preferred
    case Some(key) => Apply(p, OpTryAcquire(key, rawCap, now))
    case None => p
  }

  class Affinity {
    var bindings: map<string, string>

    constructor ()
      ensures bindings == map[]
    {
      bindings := map[];
    }

    /** refreshConversationKeyBinding: unless it is forced, an existing binding stays. */
    method Refresh(rawID: string, rawKey: string, force: bool)
      modifies this
      ensures BoundKey(old(bindings), rawID).Some? && !force ==> bindings == old(bindings)
      ensures TrimSpace(rawID) != "" && TrimSpace(rawKey) != "" && (force || BoundKey(old(bindings), rawID).None?) ==>
                BoundKey(bindings, rawID) == Some(TrimSpace(rawKey))
      ensures forall id :: id != TrimSpace(rawID) ==> (id in bindings <==> id in old(bindings))
      ensures forall id :: id != TrimSpace(rawID) && id in bindings ==> bindings[id] == old(bindings)[id]
    {
      var id, key := TrimSpace(rawID), TrimSpace(rawKey);
      if id == "" || key == "" {
        return;
      }
      if !force && BoundKey(bindings, rawID).Some? {
        return;
      }
      TrimSpaceIdempotent(rawKey);
      bindings := bindings[id := key];
    }

    /** clearConversationKeyBinding: only a binding to this very key is dropped. */
    method Clear(rawID: string, rawKey: string)
      modifies this
      ensures BoundKey(old(bindings), rawID) == Some(TrimSpace(rawKey)) ==> BoundKey(bindings, rawID).None?
      ensures BoundKey(old(bindings), rawID).Some? && TrimSpace(rawKey) != ""
              && BoundKey(old(bindings), rawID) != Some(TrimSpace(rawKey)) ==>
                bindings == old(bindings)
      ensures bindings == old(bindings) || bindings == old(bindings) - {TrimSpace(rawID)}
    {
      var id, key := TrimSpace(rawID), TrimSpace(rawKey);
      if id == "" || id !in bindings {
        return;
      }
      if key != "" && TrimSpace(bindings[id]) != key {
        return;
      }
      bindings := bindings - {id};
    }

    /** acquireKeyWithQueue: the first key that the scheduler gives within `polls` polls. */
    method AcquireQueued(sched: Scheduler, rawCap: int, times: nat -> int, polls: nat) returns (key: string)
      modifies sched
      ensures FirstAnswer(old(sched.View()), if rawCap <= 0 then 3 else rawCap, times, polls, key)
      ensures TookOne(old(sched.View()), sched.View(), key)
    {
      var cap := if rawCap <= 0 then 3 else rawCap;
      ghost var start := sched.View();
      for n := 0 to polls
        invariant StillWaiting(start, sched.View(), cap, times, n)
      {
        ghost var q := sched.View();
        key := sched.AcquireKey(cap, times(n));
        WaitOn(start, q, cap, times, n, sched.View(), key);
        if key != "" {
          return;
        }
      }
      NothingTaken(start, cap, times, polls);
      return "";
    }

    /**
     acquirePreferredKeyWithQueue: the bound key if the scheduler grants it, or else the first key
     that the scheduler gives.  Whichever it is, exactly one lease of that key is taken, and none of
     any other; when there is no key, none at all.
     */
    method AcquirePreferred(sched: Scheduler, rawID: string, rawCap: int, times: nat -> int, polls: nat)
      returns (key: string, reused: bool)
      modifies sched
      ensures TookOne(old(sched.View()), sched.View(), key)
      ensures reused ==> BoundKey(bindings, rawID) == Some(key)
      ensures reused <==> BoundKey(bindings, rawID).Some? &&
                          Grants(old(sched.View()), BoundKey(bindings, rawID).value, rawCap, times(0))
      ensures !reused ==>
                FirstAnswer(AfterRefusal(old(sched.View()), BoundKey(bindings, rawID), rawCap, times(0)),
                            if rawCap <= 0 then 3 else rawCap, times, polls, key)
    {
      var preferred := BoundKey(bindings, rawID);
      if preferred.Some? {
        BoundIsTrimmed(bindings, rawID);
        var granted := sched.TryAcquireSpecificKey(preferred.value, rawCap, times(0));
        if granted {
          return preferred.value, true;
        }
      }
      key := AcquireQueued(sched, rawCap, times, polls);
      return key, false;
    }
  }

  /** One lease of the key has been taken, and none of any other; a key named "" is told apart only if it is no key. */
  ghost predicate TookOne(p: Pool, q: Pool, key: string) {
    forall k :: k != "" || AllNamed(p) ==>
                  InUse(q.concurrency, k) == InUse(p.concurrency, k) + (if k == key && key != "" then 1 else 0)
  }

  lemma OneMoreTaken(p: Pool, q: Pool, cap: int, now: int)
    requires TookOne(p, q, "") && (AllNamed(p) ==> AllNamed(q))
    ensures TookOne(p, Acquire(q, cap, now).0, AcquiredName(q, cap, now))
    ensures AllNamed(p) ==> AllNamed(Acquire(q, cap, now).0)
  {
    AcquireTakesOne(q, cap, now);
    LeakCondition(q, cap, now);
    if AllNamed(q) {
      NamedKept(q, OpAcquire(cap, now));
    }
  }

  /** Polls that bring no key take no lease. */
  lemma {:induction false} NothingTaken(p: Pool, cap: int, times: nat -> int, n: nat)
    requires NoAnswer(p, cap, times, n)
    ensures TookOne(p, Polled(p, cap, times, n), "") && (AllNamed(p) ==> AllNamed(Polled(p, cap, times, n)))
  {
    if n > 0 {
      NothingTaken(p, cap, times, n - 1);
      assert AnswerAt(p, cap, times, n - 1) == "";
      OneMoreTaken(p, Polled(p, cap, times, n - 1), cap, times(n - 1));
    }
  }

  lemma BoundIsTrimmed(bindings: map<string, string>, id: string)
    requires BoundKey(bindings, id).Some?
    ensures TrimSpace(BoundKey(bindings, id).value) == BoundKey(bindings, id).value != ""
  {
    TrimSpaceIdempotent(bindings[TrimSpace(id)]);
  }

  /**
   An acquire takes one lease of the key that it answers, and none of any other; an answer of ""
   stands for no lease unless the acquire leaks.
   */
  lemma AcquireTakesOne(p: Pool, cap: int, now: int)
    ensures forall k :: InUse(Acquire(p, cap, now).0.concurrency, k) == InUse(p.concurrency, k) +
                        (if k == AcquiredName(p, cap, now) && (k != "" || Leaks(p, cap, now)) then 1 else 0)
  {
    var (after, pick) := Acquire(p, cap, now);
    if pick.Some? {
      assert InUse(after.concurrency, p.active[pick.value].name) == InUse(p.concurrency, p.active[pick.value].name) + 1;
    }
  }

  /** A pool in which a key named "" leaks: the condition of the scheduler's LeakCondition can be met. */
  lemma EmptyNameLeaks(now: int)
    ensures var p := AddKey(EMPTY_POOL, "", 1.0);
      Leaks(p, 1, now) && AcquiredName(p, 1, now) == "" && InUse(Acquire(p, 1, now).0.concurrency, "") == 1
  {
    var p := AddKey(EMPTY_POOL, "", 1.0);
    assert p.active[0].name == "" && FirstBest(p, 1, now, 0);
    LeakCondition(p, 1, now);
    AcquireTakesOne(p, 1, now);
  }
}
