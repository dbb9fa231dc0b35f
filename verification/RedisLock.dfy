/**
 The token lock on a Redis server (redis/lock.go).  The server has one clock in
 milliseconds and executes SET NX PX and the two scripts one at a time; a key
 is gone once the clock has passed its expiry, and may be gone from the expiry on.
 */
module RedisLock {
  import opened Basics
  import opened Domain
  import opened EventKey

  const MILLISECOND: int := 1_000_000
  const DEFAULT_TTL: int := 30_000 * MILLISECOND

  datatype LockError = KeyRequired | NotAcquired | NotOwned | InvalidTtl

  /** What the server stores under a key; expiry is in ms. */
  datatype Entry = Entry(token: string, expiry: int)

  // ---------- tokens and keys ----------

  type Random = b: seq<Byte> | |b| == 16 witness seq(16, _ => 0)

  function NewToken(owner: string, random: Random): string {
    owner + ":" + HexBytes(random)
  }

  /** Two tokens are equal exactly when owner and random bytes are, even if owners contain colons. */
  lemma TokensAreDistinctIff(o1: string, r1: Random, o2: string, r2: Random)
    ensures NewToken(o1, r1) == NewToken(o2, r2) <==> o1 == o2 && r1 == r2
  {
    var a, b := NewToken(o1, r1), NewToken(o2, r2);
    assert a[|o1| + 1..] == HexBytes(r1) && b[|o2| + 1..] == HexBytes(r2);
    if a == b {
      assert |o1| == |o2|;
      assert a[..|o1|] == o1 && b[..|o2|] == o2;
      HexBytesInjective(r1, r2);
    }
  }

  function FullKey(prefix: string, key: string): string {
    if prefix == "" then key else prefix + ":" + key
  }

  /** Under one prefix two keys are the same on the server exactly when they are the same. */
  lemma FullKeyInjective(prefix: string, a: string, b: string)
    ensures FullKey(prefix, a) == FullKey(prefix, b) <==> a == b
  {
    if prefix != "" {
      assert FullKey(prefix, a)[|prefix| + 1..] == a && FullKey(prefix, b)[|prefix| + 1..] == b;
    }
  }

  /** The ms that SET NX is given for a positive ttl: its whole milliseconds, but at least one. */
  function SetMillis(ttl: int): (ms: int)
    ensures ttl >= MILLISECOND ==> ms * MILLISECOND <= ttl < (ms + 1) * MILLISECOND
    ensures ttl < MILLISECOND ==> ms == 1
  {
    Max(ttl / MILLISECOND, 1)
  }

  // ---------- the server ----------

  /** GET key == token. */
  predicate Holds(store: map<string, Entry>, now: int, key: string, token: string) {
    key in store && now <= store[key].expiry && store[key].token == token
  }

  predicate Free(store: map<string, Entry>, now: int, key: string) {
    key !in store || store[key].expiry < now
  }

  function AfterSetNx(store: map<string, Entry>, now: int, key: string, token: string, ms: int): map<string, Entry> {
    if Free(store, now, key) then store[key := Entry(token, now + ms)] else store
  }

  function AfterUnlock(store: map<string, Entry>, now: int, key: string, token: string): map<string, Entry> {
    if Holds(store, now, key, token) then store - {key} else store
  }

  function AfterRenew(store: map<string, Entry>, now: int, key: string, token: string, ms: int): map<string, Entry> {
    if Holds(store, now, key, token) then store[key := Entry(token, now + ms)] else store
  }

  class Server {
    var store: map<string, Entry>
    var now: int

    constructor (now: int)
      ensures store == map[] && this.now == now
    {
      store := map[];
      this.now := now;
    }

    method SetNx(key: string, token: string, ms: int) returns (ok: bool)
      modifies this`store
      ensures ok <==> Free(old(store), now, key)
      ensures store == AfterSetNx(old(store), now, key, token, ms)
    {
      ok := key !in store || store[key].expiry < now;
      if ok {
        store := store[key := Entry(token, now + ms)];
      }
    }

    method UnlockScript(key: string, token: string) returns (result: int)
      modifies this`store
      ensures result == if Holds(old(store), now, key, token) then 1 else 0
      ensures store == AfterUnlock(old(store), now, key, token)
    {
      if key in store && now <= store[key].expiry && store[key].token == token {
        store := store - {key};
        return 1;
      }
      return 0;
    }

    method RenewScript(key: string, token: string, ms: int) returns (result: int)
      modifies this`store
      ensures result == if Holds(old(store), now, key, token) then 1 else 0
      ensures store == AfterRenew(old(store), now, key, token, ms)
    {
      if key in store && now <= store[key].expiry && store[key].token == token {
        store := store[key := Entry(token, now + ms)];
        return 1;
      }
      return 0;
    }
  }

  // ---------- the client ----------

  function EffectiveTtl(ttl: int): (t: int)
    ensures t == ttl > 0 || (ttl <= 0 && t == 30_000 * MILLISECOND)
  {
    if ttl <= 0 then DEFAULT_TTL else ttl
  }

  /** The ttl of a renewal; anything below one ms is refused. */
  function RenewalTtl(current: int, ttl: int): int {
    if ttl <= 0 then current else ttl
  }

  class Lock {
    const server: Server
    const key: string
    const token: string
    var ttl: int

    constructor (server: Server, key: string, token: string, ttl: int)
      ensures this.server == server && this.key == key && this.token == token && this.ttl == ttl
    {
      this.server := server;
      this.key := key;
      this.token := token;
      this.ttl := ttl;
    }

    method Unlock() returns (r: Outcome<LockError>)
      modifies server`store
      ensures r == if Holds(old(server.store), server.now, key, token) then Pass else Fail(NotOwned)
      ensures server.store == if r.Pass? then old(server.store) - {key} else old(server.store)
    {
      var result := server.UnlockScript(key, token);
      r := if result == 0 then Fail(NotOwned) else Pass;
    }

    method Renew(ttl: int) returns (r: Outcome<LockError>)
      modifies this`ttl, server`store
      ensures var t := if ttl <= 0 then old(this.ttl) else ttl;
              && (t < MILLISECOND ==> r == Fail(InvalidTtl) && server.store == old(server.store))
              && (t >= MILLISECOND ==>
                    && r == (if Holds(old(server.store), server.now, key, token) then Pass else Fail(NotOwned))
                    && server.store == (if r.Pass?
                                        then old(server.store)[key := Entry(token, server.now + t / MILLISECOND)]
                                        else old(server.store)))
              && this.ttl == if r.Pass? then t else old(this.ttl)
    {
      var t := if ttl <= 0 then this.ttl else ttl;
      if t < MILLISECOND {
        return Fail(InvalidTtl);
      }
      var result := server.RenewScript(key, token, t / MILLISECOND);
      if result == 0 {
        return Fail(NotOwned);
      }
      this.ttl := t;
      r := Pass;
    }
  }

  predicate NeverFree(world: nat -> (map<string, Entry>, int), tries: nat, key: string) {
    forall i :: 0 <= i < tries ==> !Free(world(i).0, world(i).1, key)
  }

  predicate FirstFree(world: nat -> (map<string, Entry>, int), i: nat, tries: nat, key: string) {
    i < tries && NeverFree(world, i, key) && Free(world(i).0, world(i).1, key)
  }

  class LockManager {
    const server: Server
    const owner: string
    const keyPrefix: string

    constructor (server: Server, owner: string, keyPrefix: string)
      ensures this.server == server && this.owner == owner && this.keyPrefix == keyPrefix
    {
      this.server := server;
      this.owner := owner;
      this.keyPrefix := keyPrefix;
    }

    /** No lock and no error when somebody else holds the key. */
    method TryLock(key: string, ttl: int, random: Random) returns (r: Result<Option<Lock>, LockError>)
      modifies server`store
      ensures r.Err? <==> key == ""
      ensures r.Err? ==> r.error == KeyRequired && server.store == old(server.store)
      ensures r.Ok? ==>
                var full, token := FullKey(keyPrefix, key), NewToken(owner, random);
                && server.store == AfterSetNx(old(server.store), server.now, full, token, SetMillis(EffectiveTtl(ttl)))
                && (r.value.Some? <==> Free(old(server.store), server.now, full))
                && server.store == (if r.value.None? then old(server.store)
                                    else old(server.store)[full := Entry(token,
                                                                         server.now + SetMillis(EffectiveTtl(ttl)))])
                && (r.value.Some? ==> r.value.value.server == server && r.value.value.key == full
                                      && r.value.value.token == token && r.value.value.ttl == EffectiveTtl(ttl)
                                      && Holds(server.store, server.now, full, token))
    {
      if key == "" {
        return Err(KeyRequired);
      }
      var lease := if ttl <= 0 then DEFAULT_TTL else ttl;
      var full := FullKey(keyPrefix, key);
      var token := NewToken(owner, random);
      var ok := server.SetNx(full, token, SetMillis(lease));
      if !ok {
        return Ok(None);
      }
      var lock := new Lock(server, full, token, lease);
      r := Ok(Some(lock));
    }

    /**
     tries is how often the loop comes round before the context ends, once at least; before try i others leave the
     server as world(i).
     */
    method Lock(key: string, ttl: int, tries: nat, randoms: nat -> Random, world: nat -> (map<string, Entry>, int))
    returns (r: Result<Lock, LockError>)
      requires tries >= 1
      modifies server
      ensures key == "" ==> r == Err(KeyRequired)
      ensures key != "" && r.Err? ==> r.error == NotAcquired && NeverFree(world, tries, FullKey(keyPrefix, key))
      ensures r.Ok? ==>
                exists i :: FirstFree(world, i, tries, FullKey(keyPrefix, key))
                            && r.value.key == FullKey(keyPrefix, key) && r.value.token == NewToken(owner, randoms(i))
                            && r.value.ttl == EffectiveTtl(ttl) && r.value.server == server && server.now == world(i).1
                            && server.store == AfterSetNx(world(i).0, world(i).1, r.value.key, r.value.token,
                                                          SetMillis(EffectiveTtl(ttl)))
    {
      var lease := if ttl <= 0 then DEFAULT_TTL else ttl;
      var i := 0;
      while true
        invariant 0 <= i < tries && (i > 0 ==> key != "")
        invariant NeverFree(world, i, FullKey(keyPrefix, key))
        decreases tries - i
      {
        server.store, server.now := world(i).0, world(i).1;
        var attempt := TryLock(key, lease, randoms(i));
        if attempt.Err? {
          return Err(attempt.error);
        }
        if attempt.value.Some? {
          assert FirstFree(world, i, tries, FullKey(keyPrefix, key));
          return Ok(attempt.value.value);
        }
        i := i + 1;
        if i == tries {
          return Err(NotAcquired);
        }
      }
    }
  }

  // ---------- every run ----------

  /** A lock that TryLock returned: its last granted expiry, and the time of the unlock that took effect. */
  datatype Handle = Handle(key: string, token: string, ttl: int, acquired: int, expiry: int, unlocked: Option<int>)

  datatype State = State(now: int, store: map<string, Entry>, handles: seq<Handle>, used: set<string>)

  /** A command whose reply is lost takes effect on the server only. */
  datatype Step =
    | Tick(d: nat)
    | Expire(key: string)
    | Acquire(key: string, ttl: int, token: string, replied: bool)
    | Unlock(h: nat)
    | Renew(h: nat, ttl: int, replied: bool)

  predicate Enabled(s: State, step: Step) {
    match step
    case Tick(_) => true
    case Expire(key) => key in s.store && s.store[key].expiry <= s.now
    case Acquire(_, _, token, _) => token !in s.used
    case Unlock(h) => h < |s.handles|
    case Renew(h, _, _) => h < |s.handles|
  }

  function Apply(s: State, step: Step): State
    requires Enabled(s, step)
  {
    match step
    case Tick(d) => s.(now := s.now + d)
    case Expire(key) => s.(store := s.store - {key})
    case Acquire(key, ttl, token, replied) =>
      var lease := EffectiveTtl(ttl);
      s.(store := AfterSetNx(s.store, s.now, key, token, SetMillis(lease)),
         used := s.used + {token},
         handles := if Free(s.store, s.now, key) && replied
                    then s.handles + [Handle(key, token, lease, s.now, s.now + SetMillis(lease), None)] else s.handles)
    case Unlock(h) =>
      var x := s.handles[h];
      if !Holds(s.store, s.now, x.key, x.token) then s
      else s.(store := AfterUnlock(s.store, s.now, x.key, x.token),
              handles := s.handles[h := x.(unlocked := Some(s.now))])
    case Renew(h, ttl, replied) =>
      var x := s.handles[h];
      var t := RenewalTtl(x.ttl, ttl);
      if t < MILLISECOND || !Holds(s.store, s.now, x.key, x.token) then s
      else s.(store := AfterRenew(s.store, s.now, x.key, x.token, t / MILLISECOND),
              handles := s.handles[h := x.(expiry := s.now + t / MILLISECOND, ttl := if replied then t else x.ttl)])
  }

  ghost predicate Leads(s: State, steps: seq<Step>, t: State)
    decreases |steps|
  {
    if steps == [] then s == t else Enabled(s, steps[0]) && Leads(Apply(s, steps[0]), steps[1..], t)
  }

  predicate Initial(s: State) {
    s.store == map[] && s.handles == []
  }

  /** The server stores the handle's token. */
  predicate Stored(s: State, h: Handle) {
    h.key in s.store && s.store[h.key].token == h.token
  }

  predicate Over(h: Handle, x: int) {
    (h.unlocked.Some? && h.unlocked.value <= x) || h.expiry <= x
  }

  predicate HandleOk(s: State, h: Handle) {
    && h.token in s.used && h.acquired <= s.now
    && (if Stored(s, h) then h.expiry == s.store[h.key].expiry && h.unlocked.None? else Over(h, s.now))
  }

  predicate Apart(s: State, i: nat, j: nat)
    requires i < |s.handles| && j < |s.handles|
  {
    && s.handles[i].token != s.handles[j].token
    && (s.handles[i].key == s.handles[j].key ==> Over(s.handles[i], s.handles[j].acquired) && !Stored(s, s.handles[i]))
  }

  predicate Inv(s: State) {
    && (forall key :: key in s.store ==> s.store[key].token in s.used)
    && (forall i :: 0 <= i < |s.handles| ==> HandleOk(s, s.handles[i]))
    && (forall i, j :: 0 <= i < j < |s.handles| ==> Apart(s, i, j))
  }

  lemma AcquireKeeps(s: State, key: string, ttl: int, token: string, replied: bool)
    requires Inv(s) && Enabled(s, Acquire(key, ttl, token, replied))
    ensures Inv(Apply(s, Acquire(key, ttl, token, replied)))
  {
    var t := Apply(s, Acquire(key, ttl, token, replied));
    forall i | 0 <= i < |t.handles| ensures HandleOk(t, t.handles[i]) {
      if i < |s.handles| { assert HandleOk(s, s.handles[i]); }
    }
    forall i, j | 0 <= i < j < |t.handles| ensures Apart(t, i, j) {
      assert HandleOk(s, s.handles[i]);
      if j < |s.handles| { assert Apart(s, i, j); }
    }
  }

  /** A command on a handle that the server still stores leaves all other handles as they were. */
  lemma OwnerChangeKeeps(s: State, t: State, h: nat)
    requires Inv(s) && h < |s.handles| && Holds(s.store, s.now, s.handles[h].key, s.handles[h].token)
    requires t.now == s.now && t.used == s.used && |t.handles| == |s.handles|
    requires forall i :: 0 <= i < |s.handles| && i != h ==> t.handles[i] == s.handles[i]
    requires t.handles[h].key == s.handles[h].key && t.handles[h].token == s.handles[h].token
    requires t.handles[h].acquired == s.handles[h].acquired
    requires HandleOk(t, t.handles[h])
    requires forall key :: key != s.handles[h].key ==>
             (key in t.store <==> key in s.store) && (key in s.store ==> t.store[key] == s.store[key])
    requires s.handles[h].key in t.store ==> t.store[s.handles[h].key].token == s.handles[h].token
    ensures Inv(t)
  {
    forall key | key in t.store ensures t.store[key].token in t.used {
      assert HandleOk(s, s.handles[h]);
    }
    forall i | 0 <= i < |t.handles| ensures HandleOk(t, t.handles[i]) {
      assert HandleOk(s, s.handles[i]);
      if i < h { assert Apart(s, i, h); } else if h < i { assert Apart(s, h, i); }
    }
    forall i, j | 0 <= i < j < |t.handles| ensures Apart(t, i, j) {
      assert Apart(s, i, j);
    }
  }

  lemma StepKeepsInv(s: State, step: Step)
    requires Inv(s) && Enabled(s, step)
    ensures Inv(Apply(s, step))
  {
    var t := Apply(s, step);
    match step
    case Acquire(key, ttl, token, replied) => AcquireKeeps(s, key, ttl, token, replied);
    case Unlock(h) =>
      if Holds(s.store, s.now, s.handles[h].key, s.handles[h].token) {
        assert HandleOk(s, s.handles[h]);
        OwnerChangeKeeps(s, t, h);
      }
    case Renew(h, ttl, replied) =>
      if t != s {
        assert HandleOk(s, s.handles[h]);
        OwnerChangeKeeps(s, t, h);
      }
    case _ =>
      forall i | 0 <= i < |t.handles| ensures HandleOk(t, t.handles[i]) { assert HandleOk(s, s.handles[i]); }
      forall i, j | 0 <= i < j < |t.handles| ensures Apart(t, i, j) { assert Apart(s, i, j); }
  }

  lemma {:induction false} LeadsKeepsInv(s: State, steps: seq<Step>, t: State)
    requires Inv(s) && Leads(s, steps, t)
    ensures Inv(t)
    decreases |steps|
  {
    if steps != [] {
      StepKeepsInv(s, steps[0]);
      LeadsKeepsInv(Apply(s, steps[0]), steps[1..], t);
    }
  }

  /** From acquisition to unlock or last granted expiry. */
  predicate Owns(h: Handle, x: int) {
    h.acquired <= x < h.expiry && (h.unlocked.Some? ==> x < h.unlocked.value)
  }

  /** Over every run no instant belongs to two handles of one key. */
  lemma OwnersAreExclusive(s: State, steps: seq<Step>, t: State, i: nat, j: nat, x: int)
    requires Initial(s) && Leads(s, steps, t)
    requires i < j < |t.handles| && t.handles[i].key == t.handles[j].key
    ensures !(Owns(t.handles[i], x) && Owns(t.handles[j], x))
  {
    LeadsKeepsInv(s, steps, t);
    assert Apart(t, i, j);
  }

  /** Unlock and Renew of a handle that was overtaken, unlocked or let expire report not-owned and change nothing. */
  lemma StaleHandleIsHarmless(s: State, steps: seq<Step>, t: State, i: nat, ttl: int, replied: bool)
    requires Initial(s) && Leads(s, steps, t) && i < |t.handles|
    requires t.handles[i].unlocked.Some? || t.handles[i].expiry < t.now
             || exists j :: i < j < |t.handles| && t.handles[j].key == t.handles[i].key
    ensures !Holds(t.store, t.now, t.handles[i].key, t.handles[i].token)
    ensures Apply(t, Unlock(i)) == t && Apply(t, Renew(i, ttl, replied)) == t
  {
    LeadsKeepsInv(s, steps, t);
    assert HandleOk(t, t.handles[i]);
    if j :| i < j < |t.handles| && t.handles[j].key == t.handles[i].key {
      assert Apart(t, i, j);
    }
  }

  /** An owner that is not yet due to expire is stored: its Unlock frees the key and ends its ownership now. */
  lemma OwnerIsStored(s: State, steps: seq<Step>, t: State, i: nat)
    requires Initial(s) && Leads(s, steps, t)
    requires i < |t.handles| && Owns(t.handles[i], t.now)
    ensures Holds(t.store, t.now, t.handles[i].key, t.handles[i].token)
    ensures var u := Apply(t, Unlock(i)); t.handles[i].key !in u.store && !Owns(u.handles[i], t.now)
  {
    LeadsKeepsInv(s, steps, t);
    assert HandleOk(t, t.handles[i]);
  }
}
