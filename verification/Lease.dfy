/** Leases with an expiry: the Redis protocol, whose release checks a token, and the in-memory one, whose
    release does not. */
module RedisLease {
  import opened Types

  datatype Held = Held(token: string, expiry: int)

  type Store = map<string, Held>

  /** The key is set and has not expired. */
  predicate Live(store: Store, key: string, now: int) {
    key in store && now < store[key].expiry
  }

  function Ttl(ttl: int): int { if ttl <= 0 then 120 * SECOND else ttl }

  /** `SET key token NX` with a time to live. */
  function SetNx(store: Store, key: string, token: string, ttl: int, now: int): (Store, bool) {
    if Live(store, key, now) then (store, false) else (store[key := Held(token, now + ttl)], true)
  }

  /** The release script: delete the key if it still holds the token. */
  function CompareAndDelete(store: Store, key: string, token: string, now: int): Store {
    if Live(store, key, now) && store[key].token == token then store - {key} else store
  }

  /** A lease handed to a client. */
  datatype Lease = Lease(key: string, token: string, expiry: int)

  /** What the acquire loop finds at one turn: the store as other clients left it, the time, and
      whether the context is done by the end of the pause that follows. */
  datatype Poll = Poll(store: Store, now: int, cancelled: bool)

  datatype Outcome = Granted(turn: nat, store: Store, lease: Lease) | Cancelled(turn: nat) | StillWaiting

  /** The acquire loop over the turns `polls`: it gets the lease at the first turn at which the key is
      free, unless the context was done before. */
  method AcquireLoop(key: string, token: string, ttl: int, polls: seq<Poll>) returns (r: Outcome)
    ensures r.Granted? ==>
              && r.turn < |polls| && !Live(polls[r.turn].store, key, polls[r.turn].now)
              && r.store == polls[r.turn].store[key := Held(token, polls[r.turn].now + Ttl(ttl))]
              && r.lease == Lease(key, token, polls[r.turn].now + Ttl(ttl))
              && forall i :: 0 <= i < r.turn ==> Live(polls[i].store, key, polls[i].now) && !polls[i].cancelled
    ensures r.Cancelled? ==>
              && r.turn < |polls| && polls[r.turn].cancelled
              && forall i :: 0 <= i <= r.turn ==>
                  Live(polls[i].store, key, polls[i].now) && (polls[i].cancelled ==> i == r.turn)
    ensures r.StillWaiting? <==> forall i :: 0 <= i < |polls| ==>
              Live(polls[i].store, key, polls[i].now) && !polls[i].cancelled
  {
    var span := ttl;
    if span <= 0 {
      span := 120 * SECOND;
    }
    for i := 0 to |polls|
      invariant forall j :: 0 <= j < i ==> Live(polls[j].store, key, polls[j].now) && !polls[j].cancelled
    {
      var (store, ok) := SetNx(polls[i].store, key, token, span, polls[i].now);
      if ok {
        return Granted(i, store, Lease(key, token, polls[i].now + span));
      }
      if polls[i].cancelled {
        return Cancelled(i);
      }
    }
    return StillWaiting;
  }

  /** The store, and the leases that were handed out and those given back in time. */
  datatype State = State(now: int, store: Store, granted: set<Lease>, released: set<Lease>)

  datatype Action =
    | Wait(until: int)
    | Acquire(key: string, token: string, ttl: int)
    | Release(lease: Lease)

  /** Time does not run backwards, tokens are not reused, and clients release leases that they got,
      at any time and as often as they like. */
  predicate Possible(s: State, a: Action) {
    match a
    case Wait(until) => s.now <= until
    case Acquire(_, token, _) => forall l :: l in s.granted ==> l.token != token
    case Release(l) => l in s.granted
  }

  function Next(s: State, a: Action): State {
    match a
    case Wait(until) => s.(now := until)
    case Acquire(key, token, ttl) =>
      var (store, ok) := SetNx(s.store, key, token, Ttl(ttl), s.now);
      if ok then s.(store := store, granted := s.granted + {Lease(key, token, s.now + Ttl(ttl))}) else s
    case Release(l) =>
      var store := CompareAndDelete(s.store, l.key, l.token, s.now);
      s.(store := store, released := if store != s.store then s.released + {l} else s.released)
  }

  ghost predicate Run(run: seq<State>, actions: seq<Action>) {
    && |run| == |actions| + 1 && run[0] == State(run[0].now, map[], {}, {})
    && forall i :: 0 <= i < |actions| ==> Possible(run[i], actions[i]) && run[i + 1] == Next(run[i], actions[i])
  }

  /** The client may still believe that it has the lease. */
  ghost predicate Valid(s: State, l: Lease) {
    l in s.granted && l !in s.released && s.now < l.expiry
  }

  /** Every valid lease is the one in the store, and no two leases share a token. */
  ghost predicate Guarded(s: State) {
    && (forall l :: Valid(s, l) ==> l.key in s.store && s.store[l.key] == Held(l.token, l.expiry))
    && (forall l, m :: l in s.granted && m in s.granted && l.token == m.token ==> l == m)
    && (forall k :: k in s.store ==> exists l :: l in s.granted && l.key == k && s.store[k] == Held(l.token, l.expiry))
  }

  lemma NextGuarded(s: State, a: Action)
    requires Guarded(s) && Possible(s, a)
    ensures Guarded(Next(s, a))
  {
    var s' := Next(s, a);
    match a
    case Wait(_) =>
      assert forall l :: Valid(s', l) ==> Valid(s, l);
    case Acquire(key, token, ttl) =>
      if !Live(s.store, key, s.now) {
        var mine := Lease(key, token, s.now + Ttl(ttl));
        assert mine in s'.granted;
        forall k | k in s'.store
          ensures exists l :: l in s'.granted && l.key == k && s'.store[k] == Held(l.token, l.expiry)
        {
          if k != key {
            var l :| l in s.granted && l.key == k && s.store[k] == Held(l.token, l.expiry);
            assert l in s'.granted;
          }
        }
        forall l | Valid(s', l) ensures l.key in s'.store && s'.store[l.key] == Held(l.token, l.expiry) {
          if l != mine { assert Valid(s, l); }
        }
      }
    case Release(r) =>
      forall l | Valid(s', l) ensures l.key in s'.store && s'.store[l.key] == Held(l.token, l.expiry) {
        assert Valid(s, l);
        assert l.token == r.token ==> l == r;
      }
  }

  lemma {:induction false} RunsGuarded(run: seq<State>, actions: seq<Action>, i: int)
    requires Run(run, actions) && 0 <= i < |run|
    ensures Guarded(run[i])
  {
    if i > 0 {
      RunsGuarded(run, actions, i - 1);
      NextGuarded(run[i - 1], actions[i - 1]);
    }
  }

  /** At any time at most one unexpired lease per key, whatever clients do. */
  lemma Exclusion(run: seq<State>, actions: seq<Action>, i: int, l: Lease, m: Lease)
    requires Run(run, actions) && 0 <= i < |run|
    requires Valid(run[i], l) && Valid(run[i], m) && l.key == m.key
    ensures l == m
  {
    RunsGuarded(run, actions, i);
  }

  /** A release, however late, takes away no other lease; released in time it frees the key. */
  lemma ReleaseTakesOnlyItsOwn(run: seq<State>, actions: seq<Action>, i: int, m: Lease)
    requires Run(run, actions) && 0 <= i < |actions| && actions[i].Release?
    ensures Valid(run[i], m) && m != actions[i].lease ==>
              && Valid(run[i + 1], m) && m.key in run[i].store && m.key in run[i + 1].store
              && run[i + 1].store[m.key] == run[i].store[m.key]
    ensures Valid(run[i], actions[i].lease) ==> !Live(run[i + 1].store, actions[i].lease.key, run[i + 1].now)
    ensures !Valid(run[i], actions[i].lease) ==> run[i + 1].store == run[i].store
  {
    RunsGuarded(run, actions, i);
    RunsGuarded(run, actions, i + 1);
    var s, r := run[i], actions[i].lease;
    assert r in s.granted;
    if Live(s.store, r.key, s.now) && s.store[r.key].token == r.token {
      var l :| l in s.granted && l.key == r.key && s.store[r.key] == Held(l.token, l.expiry);
      assert l == r;
      ReleasedIsGone(run, actions, i, r);
    }
  }

  /** A lease that was released in time is not in the store any more. */
  ghost predicate Gone(s: State) {
    forall l :: l in s.released && l in s.granted ==> !(l.key in s.store && s.store[l.key].token == l.token)
  }

  lemma {:induction false} RunsGone(run: seq<State>, actions: seq<Action>, i: int)
    requires Run(run, actions) && 0 <= i < |run|
    ensures Gone(run[i]) && run[i].released <= run[i].granted
  {
    if i > 0 {
      RunsGone(run, actions, i - 1);
      RunsGuarded(run, actions, i - 1);
      var s, s', a := run[i - 1], run[i], actions[i - 1];
      assert s' == Next(s, a) && Possible(s, a);
      forall l | l in s'.released && l in s'.granted ensures !(l.key in s'.store && s'.store[l.key].token == l.token) {
        if l in s.released { assert l in s.granted; }
      }
    }
  }

  lemma ReleasedIsGone(run: seq<State>, actions: seq<Action>, i: int, r: Lease)
    requires Run(run, actions) && 0 <= i < |run| && r in run[i].granted
    ensures r.key in run[i].store && run[i].store[r.key].token == r.token ==> r !in run[i].released
  {
    RunsGone(run, actions, i);
  }

  ghost predicate IsHeld(s: State, key: string) {
    exists l :: Valid(s, l) && l.key == key
  }

  /** In every run the store and the leases agree on whether a key is held. */
  lemma LiveIffHeld(run: seq<State>, actions: seq<Action>, i: int, key: string)
    requires Run(run, actions) && 0 <= i < |run|
    ensures Live(run[i].store, key, run[i].now) <==> IsHeld(run[i], key)
  {
    var s := run[i];
    RunsGuarded(run, actions, i);
    RunsGone(run, actions, i);
    if Live(s.store, key, s.now) {
      var l :| l in s.granted && l.key == key && s.store[key] == Held(l.token, l.expiry);
      assert Valid(s, l);
    }
  }

  /** In every run whoever asks for a key gets it exactly when nobody validly holds it, for the time asked for
      or for two minutes. */
  lemma GrantedIffFree(run: seq<State>, actions: seq<Action>, i: int)
    requires Run(run, actions) && 0 <= i < |actions| && actions[i].Acquire?
    ensures var s, s', a := run[i], run[i + 1], actions[i];
            var mine := Lease(a.key, a.token, s.now + if a.ttl > 0 then a.ttl else 120 * SECOND);
            if IsHeld(s, a.key) then s' == s
            else Valid(s', mine) && s'.granted == s.granted + {mine} && s'.released == s.released
  {
    LiveIffHeld(run, actions, i, actions[i].key);
    RunsGone(run, actions, i);
    assert Possible(run[i], actions[i]) && run[i + 1] == Next(run[i], actions[i]);
  }
}

module MemoryLease {
  import opened Types
  import RedisLease

  type Locks = map<string, int>

  /** The coordinator: expiry per key. */
  class MemoryCoordinator {
    var locks: Locks

    constructor ()
      ensures locks == map[]
    {
      locks := map[];
    }

    /** One turn of the acquire loop under the mutex. */
    method TryAcquire(key: string, ttl: int, now: int) returns (ok: bool)
      modifies this
      ensures (locks, ok) == TakeLock(old(locks), key, ttl, now)
    {
      var span := ttl;
      if span <= 0 {
        span := 120 * SECOND;
      }
      if key !in locks || now > locks[key] {
        locks := locks[key := now + span];
        return true;
      }
      return false;
    }

    method Release(key: string)
      modifies this
      ensures locks == old(locks) - {key}
    {
      locks := locks - {key};
    }
  }

  /** What the acquire loop finds at one turn, as for `RedisLease.Poll`. */
  datatype Poll = Poll(locks: Locks, now: int, cancelled: bool)

  datatype Outcome = Granted(turn: nat, locks: Locks) | Cancelled(turn: nat) | StillWaiting

  /** The key is locked. Unlike the Redis key it is still locked at its expiry. */
  predicate Taken(p: Poll, key: string) { key in p.locks && p.now <= p.locks[key] }

  /** The acquire loop over the turns `polls`: it takes the lock at the first turn at which the key is
      free, unless the context was done before. */
  method AcquireLoop(key: string, ttl: int, polls: seq<Poll>) returns (r: Outcome)
    ensures r.Granted? ==>
              && r.turn < |polls| && !Taken(polls[r.turn], key)
              && r.locks == polls[r.turn].locks[key := polls[r.turn].now + RedisLease.Ttl(ttl)]
              && forall i :: 0 <= i < r.turn ==> Taken(polls[i], key) && !polls[i].cancelled
    ensures r.Cancelled? ==>
              && r.turn < |polls| && polls[r.turn].cancelled
              && forall i :: 0 <= i <= r.turn ==> Taken(polls[i], key) && (polls[i].cancelled ==> i == r.turn)
    ensures r.StillWaiting? <==> forall i :: 0 <= i < |polls| ==> Taken(polls[i], key) && !polls[i].cancelled
  {
    for i := 0 to |polls|
      invariant forall j :: 0 <= j < i ==> Taken(polls[j], key) && !polls[j].cancelled
    {
      var (locks, ok) := TakeLock(polls[i].locks, key, ttl, polls[i].now);
      if ok {
        return Granted(i, locks);
      }
      if polls[i].cancelled {
        return Cancelled(i);
      }
    }
    return StillWaiting;
  }

  function TakeLock(locks: Locks, key: string, ttl: int, now: int): (Locks, bool) {
    if key !in locks || now > locks[key] then (locks[key := now + RedisLease.Ttl(ttl)], true) else (locks, false)
  }

  /** A lease handed to a client; `number` tells leases apart. */
  datatype Lease = Lease(number: nat, key: string, expiry: int)

  datatype State = State(now: int, locks: Locks, granted: set<Lease>, released: set<Lease>)

  datatype Action = Wait(until: int) | Acquire(number: nat, key: string, ttl: int) | Release(lease: Lease)

  predicate Possible(s: State, a: Action) {
    match a
    case Wait(until) => s.now <= until
    case Acquire(number, _, _) => forall l :: l in s.granted ==> l.number != number
    case Release(l) => l in s.granted
  }

  function Next(s: State, a: Action): State {
    match a
    case Wait(until) => s.(now := until)
    case Acquire(number, key, ttl) =>
      var (locks, ok) := TakeLock(s.locks, key, ttl, s.now);
      if ok then s.(locks := locks, granted := s.granted + {Lease(number, key, s.now + RedisLease.Ttl(ttl))}) else s
    case Release(l) => s.(locks := s.locks - {l.key}, released := s.released + {l})
  }

  ghost predicate Run(run: seq<State>, actions: seq<Action>) {
    && |run| == |actions| + 1 && run[0] == State(run[0].now, map[], {}, {})
    && forall i :: 0 <= i < |actions| ==> Possible(run[i], actions[i]) && run[i + 1] == Next(run[i], actions[i])
  }

  ghost predicate Valid(s: State, l: Lease) {
    l in s.granted && l !in s.released && s.now <= l.expiry
  }

  /** Every valid lease has its key locked until its expiry, and is the only valid lease of that key. */
  ghost predicate Guarded(s: State) {
    && (forall l :: Valid(s, l) ==> l.key in s.locks && s.locks[l.key] == l.expiry)
    && (forall l, m :: Valid(s, l) && Valid(s, m) && l.key == m.key ==> l == m)
  }

  /** Leases are released at most once and not after they expired. */
  ghost predicate Polite(run: seq<State>, actions: seq<Action>)
    requires |run| == |actions| + 1
  {
    forall i :: 0 <= i < |actions| && actions[i].Release? ==> Valid(run[i], actions[i].lease)
  }

  lemma NextGuarded(s: State, a: Action)
    requires Guarded(s) && Possible(s, a) && (a.Release? ==> Valid(s, a.lease))
    ensures Guarded(Next(s, a))
  {
    var s' := Next(s, a);
    forall l | Valid(s', l)
      ensures l.key in s'.locks && s'.locks[l.key] == l.expiry
      ensures l !in s.granted || Valid(s, l)
    {
      if l in s.granted { assert Valid(s, l); }
    }
    forall l, m | Valid(s', l) && Valid(s', m) && l.key == m.key ensures l == m {
      assert l in s.granted ==> Valid(s, l);
      assert m in s.granted ==> Valid(s, m);
    }
  }

  lemma {:induction false} RunsGuarded(run: seq<State>, actions: seq<Action>, i: int)
    requires Run(run, actions) && Polite(run, actions) && 0 <= i < |run|
    ensures Guarded(run[i])
  {
    if i > 0 {
      RunsGuarded(run, actions, i - 1);
      NextGuarded(run[i - 1], actions[i - 1]);
    }
  }

  /** With polite clients there is at most one valid lease per key at any time. */
  lemma Exclusion(run: seq<State>, actions: seq<Action>, i: int, l: Lease, m: Lease)
    requires Run(run, actions) && Polite(run, actions) && 0 <= i < |run|
    requires Valid(run[i], l) && Valid(run[i], m) && l.key == m.key
    ensures l == m
  {
    RunsGuarded(run, actions, i);
  }

  ghost predicate IsHeld(s: State, key: string) {
    exists l :: Valid(s, l) && l.key == key
  }

  /** Every lock was taken by a lease that was not released. */
  ghost predicate Owned(s: State) {
    forall k :: k in s.locks ==> exists l :: l in s.granted && l !in s.released && l.key == k && s.locks[k] == l.expiry
  }

  lemma NextOwned(s: State, a: Action)
    requires Owned(s) && s.released <= s.granted && Possible(s, a)
    ensures Owned(Next(s, a))
  {
    var s' := Next(s, a);
    forall k | k in s'.locks
      ensures exists l :: l in s'.granted && l !in s'.released && l.key == k && s'.locks[k] == l.expiry
    {
      if k in s.locks && s'.locks[k] == s.locks[k] {
        var l :| l in s.granted && l !in s.released && l.key == k && s.locks[k] == l.expiry;
        assert l in s'.granted && l !in s'.released;
      } else {
        assert Lease(a.number, k, s'.locks[k]) in s'.granted;
      }
    }
  }

  lemma {:induction false} RunsOwned(run: seq<State>, actions: seq<Action>, i: int)
    requires Run(run, actions) && 0 <= i < |run|
    ensures Owned(run[i]) && run[i].released <= run[i].granted
  {
    RunsReleaseGranted(run, actions, i);
    if i > 0 {
      RunsOwned(run, actions, i - 1);
      NextOwned(run[i - 1], actions[i - 1]);
    }
  }

  /** With polite clients whoever asks for a key gets it exactly when nobody validly holds it, for the time asked
      for or for two minutes. */
  lemma GrantedIffFree(run: seq<State>, actions: seq<Action>, i: int)
    requires Run(run, actions) && Polite(run, actions) && 0 <= i < |actions| && actions[i].Acquire?
    ensures var s, s', a := run[i], run[i + 1], actions[i];
            var mine := Lease(a.number, a.key, s.now + if a.ttl > 0 then a.ttl else 120 * SECOND);
            if IsHeld(s, a.key) then s' == s
            else Valid(s', mine) && s'.granted == s.granted + {mine} && s'.released == s.released
  {
    var s, a := run[i], actions[i];
    RunsGuarded(run, actions, i);
    RunsOwned(run, actions, i);
    assert Possible(s, a) && run[i + 1] == Next(s, a);
    if a.key in s.locks && s.now <= s.locks[a.key] {
      var l :| l in s.granted && l !in s.released && l.key == a.key && s.locks[a.key] == l.expiry;
      assert Valid(s, l);
    }
  }

  /** At most one valid lease per key. */
  ghost predicate Exclusive(s: State) {
    forall l, m :: Valid(s, l) && Valid(s, m) && l.key == m.key ==> l == m
  }

  /** Somebody else validly holds the key of `l`. */
  ghost predicate HeldByOther(s: State, l: Lease) {
    exists m :: Valid(s, m) && m.key == l.key && m != l
  }

  /** If somebody else holds the key, whoever comes next gets it as well, for any time to live. */
  lemma ReleaseLetsTwoIn(s: State, l: Lease, number: nat, ttl: int)
    requires s.released <= s.granted && l in s.granted && HeldByOther(s, l) && Possible(s, Acquire(number, l.key, ttl))
    ensures var s' := Next(Next(s, Release(l)), Acquire(number, l.key, ttl));
            exists m, mine :: Valid(s', m) && Valid(s', mine) && m.key == l.key && mine.key == l.key && m != mine
  {
    var m :| Valid(s, m) && m.key == l.key && m != l;
    var freed := Next(s, Release(l));
    var s', mine := Next(freed, Acquire(number, l.key, ttl)), Lease(number, l.key, s.now + RedisLease.Ttl(ttl));
    assert l.key !in freed.locks;
    assert mine !in s.granted && mine !in freed.released;
    assert Valid(s', m) && Valid(s', mine);
  }

  lemma {:induction false} FreshNumber(granted: set<Lease>) returns (n: nat)
    ensures forall l :: l in granted ==> l.number < n
  {
    if granted == {} {
      n := 0;
    } else {
      var l :| l in granted;
      n := FreshNumber(granted - {l});
      assert forall m :: m in granted ==> m == l || m in granted - {l};
      n := if n <= l.number then l.number + 1 else n;
    }
  }

  /** If nobody else holds the key, a release keeps the invariant, and with it exclusion from then on. */
  lemma ReleaseKeepsGuard(s: State, l: Lease)
    requires Guarded(s) && l in s.granted && !HeldByOther(s, l)
    ensures Guarded(Next(s, Release(l)))
  {
    var s' := Next(s, Release(l));
    forall x | Valid(s', x) ensures x.key in s'.locks && s'.locks[x.key] == x.expiry {
      assert Valid(s, x);
    }
    forall x, y | Valid(s', x) && Valid(s', y) && x.key == y.key ensures x == y {
      assert Valid(s, x) && Valid(s, y);
    }
  }

  /** A release is harmless, in that whoever acquires the key next is its only holder, exactly when nobody
      else validly holds the key. */
  lemma ReleaseSafeIff(s: State, l: Lease)
    requires Guarded(s) && s.released <= s.granted && l in s.granted
    ensures (forall number, ttl :: Possible(s, Acquire(number, l.key, ttl)) ==>
               Exclusive(Next(Next(s, Release(l)), Acquire(number, l.key, ttl))))
              <==> !HeldByOther(s, l)
  {
    if HeldByOther(s, l) {
      var n := FreshNumber(s.granted);
      assert Possible(s, Acquire(n, l.key, 1));
      ReleaseLetsTwoIn(s, l, n, 1);
      assert !Exclusive(Next(Next(s, Release(l)), Acquire(n, l.key, 1)));
    } else {
      ReleaseKeepsGuard(s, l);
      forall number, ttl | Possible(s, Acquire(number, l.key, ttl))
        ensures Exclusive(Next(Next(s, Release(l)), Acquire(number, l.key, ttl)))
      {
        NextGuarded(Next(s, Release(l)), Acquire(number, l.key, ttl));
      }
    }
  }

  /** In every run, polite or not, only leases that were granted are released. */
  lemma {:induction false} RunsReleaseGranted(run: seq<State>, actions: seq<Action>, i: int)
    requires Run(run, actions) && 0 <= i < |run|
    ensures run[i].released <= run[i].granted
  {
    if i > 0 {
      RunsReleaseGranted(run, actions, i - 1);
      assert Possible(run[i - 1], actions[i - 1]) && run[i] == Next(run[i - 1], actions[i - 1]);
    }
  }

  /** The first lease expires, a second client gets the key, the first client releases late, and a third
      client gets the key as well. */
  function LateActions(key: string): seq<Action> {
    [Acquire(1, key, 10), Wait(11), Acquire(2, key, 10), Release(Lease(1, key, 10)), Acquire(3, key, 10)]
  }

  function LateRun(key: string): seq<State> {
    var first, second, third := Lease(1, key, 10), Lease(2, key, 21), Lease(3, key, 21);
    [State(0, map[], {}, {}),
     State(0, map[key := 10], {first}, {}),
     State(11, map[key := 10], {first}, {}),
     State(11, map[key := 21], {first, second}, {}),
     State(11, map[], {first, second}, {first}),
     State(11, map[key := 21], {first, second, third}, {first})]
  }

  lemma LateStep(key: string, i: nat)
    requires i < 5
    ensures Possible(LateRun(key)[i], LateActions(key)[i]) &&
              LateRun(key)[i + 1] == Next(LateRun(key)[i], LateActions(key)[i])
  {
    var s, s' := LateRun(key)[i], LateRun(key)[i + 1];
    var next := Next(s, LateActions(key)[i]);
    assert s'.locks == next.locks && s'.granted == next.granted && s'.released == next.released;
  }

  /** Without politeness exclusion fails: a late release of the first lease deletes the second one's lock,
      and a third client gets in. */
  lemma LateReleaseBreaksExclusion(key: string)
    ensures Run(LateRun(key), LateActions(key)) && !Polite(LateRun(key), LateActions(key))
    ensures var s, l, m := LateRun(key)[5], Lease(2, key, 21), Lease(3, key, 21);
            Valid(s, l) && Valid(s, m) && l != m
  {
    var run, actions := LateRun(key), LateActions(key);
    forall i | 0 <= i < |actions| ensures Possible(run[i], actions[i]) && run[i + 1] == Next(run[i], actions[i]) {
      LateStep(key, i);
    }
    assert !Valid(run[3], actions[3].lease);
  }
}
