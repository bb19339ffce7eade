/** The key service of one process: a cached snapshot with bounded staleness, and compare-and-swap writes
    (services/auth_service.py). */
module AuthService {
  import opened Accounts
  import opened AuthKeys

  datatype Edit = Edit(name: Option<string>, enabled: Option<bool>, key: Option<string>)

  /** The key after an edit: what the edit names changes, what it does not name stays. */
  ghost predicate Follows(edit: Edit, before: Key, after: Key) {
    && after == before.(name := after.name, enabled := after.enabled, hash := after.hash)
    && (match edit.name
        case None => after.name == before.name
        case Some(name) => if name == "" then IsDefaultName(after.name, before.role) else after.name == name)
    && after.enabled == (if edit.enabled.Some? then edit.enabled.value else before.enabled)
    && (edit.key.None? ==> after.hash == before.hash)
  }

  ghost predicate IsDefaultName(name: string, role: Role) {
    exists suffix: nat :: suffix >= 1 && name == Candidate(role, suffix)
  }

  datatype Result<T> = Done(value: T) | Missing | Refused | Unavailable

  datatype Reply = Stored(revision: nat) | Conflict | Broken

  /** Which accesses to the store fail during one attempt. */
  datatype Outage = Outage(write: bool, read: bool)

  /** What happens around a due refresh: another thread is at it, the store cannot be read, or no other thread touches the
      cache meanwhile. */
  datatype Refreshing = Refreshing(busy: bool, down: bool, alone: bool)

  /** Time has passed and other callers have committed legitimate changes; the caller itself has not. */
  ghost predicate Evolved(h: seq<Era>, h': seq<Era>, me: nat) {
    Extends(h, h') && forall k | |h| <= k < |h'| :: h'[k].caller != me
  }

  /** The shared store. A mutation succeeds iff the expected revision is current, else it changes nothing. */
  class AuthStore {
    ghost var history: seq<Era>
    var keys: Keys
    var revision: nat
    var now: real

    ghost predicate Valid() reads this {
      && History(history) && revision == |history| - 1
      && keys == history[revision].keys && history[revision].since <= now && now > 0.0
    }

    constructor (keys: Keys, now: real)
      requires AllUnique(keys) && now > 0.0
      ensures Valid() && history == [Era(now, 0, Seeded, keys)]
    {
      this.keys, revision, this.now := keys, 0, now;
      history := [Era(now, 0, Seeded, keys)];
    }

    /** Other callers and processes run for at most the given time. */
    method Elapse(me: nat, longest: real)
      requires Valid() && longest >= 0.0
      modifies this
      ensures Valid() && Evolved(old(history), history, me) && old(now) <= now <= old(now) + longest
      ensures forall k | old(|history|) <= k < |history| :: history[k].since >= old(now)
    {
      ghost var start, start0 := history, now;
      var pause: real := *;
      if 0.0 <= pause <= longest {
        now := now + pause;
      }
      var rounds: nat := *;
      while rounds > 0
        invariant Valid() && Evolved(start, history, me) && start0 <= now <= start0 + longest
        invariant forall k | |start| <= k < |history| :: history[k].since >= start0
      {
        var change: Change := *;
        var other: nat := *;
        if other != me && Legit(keys, change) {
          Commit(other, change);
        }
        rounds := rounds - 1;
      }
    }

    method Commit(caller: nat, change: Change)
      requires Valid() && Legit(keys, change)
      modifies this`history, this`keys, this`revision
      ensures Valid() && keys == Mutated(old(keys), change) && revision == old(revision) + 1
      ensures history == old(history) + [Era(now, caller, change, keys)]
    {
      keys, revision := Mutated(keys, change), revision + 1;
      history := history + [Era(now, caller, change, keys)];
    }

    method Mutate(me: nat, change: Change, expected: nat, down: bool) returns (reply: Reply)
      requires Valid() && (expected == revision ==> Legit(keys, change))
      modifies this`history, this`keys, this`revision
      ensures Valid()
      ensures reply.Broken? <==> down
      ensures reply.Conflict? <==> !down && expected != old(revision)
      ensures reply.Stored? ==>
        expected == old(revision) && reply.revision == revision == expected + 1 &&
        keys == Mutated(old(keys), change) && history == old(history) + [Era(now, me, change, keys)]
      ensures !reply.Stored? ==> history == old(history) && keys == old(keys) && revision == old(revision)
    {
      if down {
        return Broken;
      }
      if expected != revision {
        return Conflict;
      }
      Commit(me, change);
      reply := Stored(revision);
    }
  }

  /** What a cache knows: the content of one revision, which was still current loadDelay before its last refresh. */
  ghost predicate Cached(h: seq<Era>, items: Keys, revision: Option<nat>, successAt: real, loadDelay: real) {
    match revision
    case None => items == map[] && successAt == 0.0
    case Some(r) => r < |h| && SameButUsed(items, h[r].keys) && (r + 1 < |h| ==> successAt - loadDelay <= h[r + 1].since)
  }

  predicate NotOlder(a: Option<nat>, b: Option<nat>) {
    a.None? || (b.Some? && a.value <= b.value)
  }

  /** The attempts to store a use mark went on until one did not conflict, or four had. */
  ghost predicate GivenUpLast(replies: seq<Reply>) {
    && 1 <= |replies| <= CAS_ATTEMPTS && (forall k | 0 <= k < |replies| - 1 :: replies[k] == Conflict)
    && (replies[|replies| - 1] == Conflict ==> |replies| == CAS_ATTEMPTS)
  }

  class AuthService {
    const store: AuthStore
    const loadDelay: real
    const digest: string -> Hash
    const adminKey: string
    var items: Keys
    var revision: Option<nat>
    var flushes: map<KeyId, real>
    var attemptAt: real
    var successAt: real

    ghost predicate Valid() reads this, store {
      && store.Valid() && loadDelay >= 0.0 && successAt <= store.now
      && Cached(store.history, items, revision, successAt, loadDelay)
    }

    constructor (store: AuthStore, loadDelay: real, digest: string -> Hash, adminKey: string)
      requires store.Valid() && loadDelay >= 0.0
      ensures Valid() && this.store == store && this.loadDelay == loadDelay && revision == None
      ensures this.digest == digest && this.adminKey == adminKey
    {
      this.store, this.loadDelay, this.digest, this.adminKey := store, loadDelay, digest, adminKey;
      items, revision, flushes, attemptAt, successAt := map[], None, map[], 0.0, 0.0;
    }

    predicate Usable(now: real) reads this {
      successAt > 0.0 && now - successAt <= MAX_STALE_SECONDS
    }

    // Reads the store once; the answer arrives within the load delay.
    method LoadSnapshot(me: nat, down: bool) returns (loaded: Option<(Keys, nat)>)
      requires Valid()
      modifies store
      ensures loaded.None? <==> down
      ensures Valid() && Evolved(old(store.history), store.history, me) && old(store.now) <= store.now
      ensures loaded.Some? ==>
        loaded.value.1 >= old(store.revision) && loaded.value.1 < |store.history| &&
        loaded.value.0 == store.history[loaded.value.1].keys &&
        (loaded.value.1 + 1 < |store.history| ==> store.now - loadDelay <= store.history[loaded.value.1 + 1].since)
    {
      if down {
        return None;
      }
      loaded := Some((store.keys, store.revision));
      store.Elapse(me, loadDelay);
    }

    method ReloadLocked(me: nat, down: bool) returns (ok: bool)
      requires Valid()
      modifies this, store
      ensures Valid() && Evolved(old(store.history), store.history, me) && old(store.now) <= store.now
      ensures NotOlder(old(revision), revision) && old(successAt) <= successAt
      ensures ok <==> !down
      ensures ok ==> revision.Some? && items == store.history[revision.value].keys && successAt == store.now
      ensures ok ==> revision.value >= old(store.revision)
    {
      hide History, SameButUsed, Evolved;
      var loaded := LoadSnapshot(me, down);
      if loaded.None? {
        return false;
      }
      SameAsItself(loaded.value.0);
      items, revision := loaded.value.0, Some(loaded.value.1);
      attemptAt, successAt := store.now, store.now;
      ok := true;
    }

    /** Other threads of the process use the service while this one does not hold its lock. */
    method OtherThreads(me: nat, longest: real, alone: bool)
      requires Valid() && longest >= 0.0
      modifies this, store
      ensures Valid() && Evolved(old(store.history), store.history, me) && old(store.now) <= store.now <= old(store.now) + longest
      ensures forall k | old(|store.history|) <= k < |store.history| :: store.history[k].since >= old(store.now)
      ensures NotOlder(old(revision), revision) && old(successAt) <= successAt
      ensures attemptAt == old(attemptAt) || attemptAt >= old(store.now)
      ensures alone ==>
        items == old(items) && revision == old(revision) && successAt == old(successAt) && flushes == old(flushes)
    {
      store.Elapse(me, longest);
      var reload: bool := *;
      if reload && !alone {
        items, revision := store.keys, Some(store.revision);
        attemptAt, successAt := store.now, store.now;
      }
    }

    predicate Due(now: real) reads this {
      now - attemptAt >= REFRESH_INTERVAL_SECONDS
    }

    // One refresh: loads the store, and installs what it loaded unless the cache changed revision meanwhile.
    method LoadUnlessChanged(me: nat, during: Refreshing) returns (usable: bool, ghost checkedAt: real)
      requires Valid()
      modifies this, store
      ensures Valid() && Evolved(old(store.history), store.history, me)
      ensures old(store.now) <= checkedAt <= store.now
      ensures NotOlder(old(revision), revision) && old(successAt) <= successAt
      ensures usable ==> revision.Some?
      ensures usable <==> Usable(checkedAt)
      ensures during.alone && during.down ==>
        items == old(items) && revision == old(revision) && successAt == old(successAt) && flushes == old(flushes)
      ensures during.alone && !during.down ==>
        usable && successAt == checkedAt && flushes == map id | id in old(flushes) && id in items :: old(flushes)[id]
      ensures attemptAt >= old(store.now)
    {
      hide History, SameButUsed, Evolved, Legit;
      ghost var h0 := store.history;
      attemptAt := store.now;
      var expected := revision;
      var pause: real := *;
      OtherThreads(me, if pause >= 0.0 then pause else 0.0, during.alone);
      ghost var h1 := store.history;
      var loaded, at := store.keys, store.revision;
      SameAsItself(loaded);
      OtherThreads(me, loadDelay, during.alone);
      EvolvedTwice(h0, h1, store.history, me);
      EvolvedKeeps(h1, store.history, me, at);
      checkedAt := store.now;
      if during.down || revision != expected {
        return Usable(store.now), checkedAt;
      }
      items, revision, successAt := loaded, Some(at), store.now;
      flushes := map id | id in flushes && id in items :: flushes[id];
      usable := true;
    }

    /** Refreshes the snapshot when it is due; tells whether the cache may be used, as of checkedAt: exactly if its last success
        is recent enough. A due refresh that no one disturbs makes it usable. */
    method RefreshIfDue(me: nat, during: Refreshing) returns (usable: bool, ghost checkedAt: real)
      requires Valid()
      modifies this, store
      ensures Valid() && Evolved(old(store.history), store.history, me)
      ensures old(store.now) <= checkedAt <= store.now
      ensures NotOlder(old(revision), revision) && old(successAt) <= successAt
      ensures usable ==> revision.Some?
      ensures usable <==> Usable(checkedAt)
      ensures !old(Due(store.now)) ==> checkedAt == old(store.now)
      ensures !old(Due(store.now)) || (during.alone && (during.busy || during.down)) ==>
        items == old(items) && revision == old(revision) && successAt == old(successAt) && flushes == old(flushes)
      ensures old(Due(store.now)) && during == Refreshing(false, false, true) ==>
        usable && successAt == checkedAt && flushes == map id | id in old(flushes) && id in items :: old(flushes)[id]
      ensures if old(Due(store.now)) && !during.busy then attemptAt >= old(store.now) else attemptAt == old(attemptAt)
    {
      hide History, SameButUsed, Evolved, Legit;
      NoneSince(store.history, me);
      checkedAt := store.now;
      if store.now - attemptAt < REFRESH_INTERVAL_SECONDS {
        return Usable(store.now), checkedAt;
      }
      if during.busy {
        return Usable(store.now), checkedAt;
      }
      usable, checkedAt := LoadUnlessChanged(me, during);
    }

    method FindHash(hash: Hash) returns (found: Option<KeyId>)
      ensures found.Some? ==> Accepts(items, found.value, hash)
      ensures found.None? ==> forall id :: !Accepts(items, id, hash)
    {
      if id :| id in items && Accepts(items, id, hash) {
        return Some(id);
      }
      found := None;
    }

    ghost predicate Held(hash: Hash) reads this {
      exists id :: Accepts(items, id, hash)
    }

    /** The key's use was noted in the store less than a minute ago. */
    ghost predicate HeldAndNoted(hash: Hash, stamp: real) reads this {
      exists id :: Accepts(items, id, hash) && id in flushes && stamp - flushes[id] < FLUSH_SECONDS
    }

    /** Accepts a key hash if the cache holds it enabled, marking its use in the store when it can.
        A success is never later than the staleness bound and one load delay after an instant at which the store itself held the
        key enabled; the call writes at most use marks. A refusal always has its reason: the cache may not be used, the store did
        not hold the key enabled at some revision that was current within the bound, or a reload after a conflict failed. */
    method Authenticate(me: nat, hash: Hash, stamp: real, during: Refreshing, outages: seq<Outage>)
      returns (accepted: Option<(KeyId, Key)>, ghost usable: bool, ghost checkedAt: real, ghost replies: seq<Reply>)
      requires Valid() && |outages| == CAS_ATTEMPTS
      modifies this, store
      ensures Valid() && Extends(old(store.history), store.history)
      ensures old(store.now) <= checkedAt <= store.now && NotOlder(old(revision), revision)
      ensures !old(Due(store.now)) ==> (usable <==> old(Usable(store.now)))
      ensures old(Due(store.now)) && during == Refreshing(false, false, true) ==> usable
      ensures during.alone && (during.busy || during.down) ==>
        (usable <==> old(successAt) > 0.0 && checkedAt - old(successAt) <= MAX_STALE_SECONDS)
      ensures !usable ==> accepted.None?
      ensures accepted.None? ==>
        || !usable
        || LackedSince(store.history, hash, checkedAt - MAX_STALE_SECONDS - loadDelay)
        || exists k :: 0 <= k < CAS_ATTEMPTS && outages[k].read
      ensures accepted.Some? ==>
        accepted.value.1.enabled && accepted.value.1.hash == hash &&
        HeldWithin(store.history, accepted.value.0, hash, checkedAt - MAX_STALE_SECONDS - loadDelay, store.now)
      ensures OnlyTouches(store.history, old(|store.history|), me)
      ensures accepted.Some? ==> accepted.value.1.lastUsed == Some(stamp) && GivenUpLast(replies)
    {
      hide History, SameButUsed, Evolved, Legit, HeldWithin, OnlyTouches, Extends, LackedSince, Held, HeldAndNoted;
      ghost var h0 := store.history;
      var ready;
      ready, checkedAt := RefreshIfDue(me, during);
      usable := ready;
      ghost var h1 := store.history;
      NoTouchesYet(h0, h1, me);
      if !ready {
        return None, usable, checkedAt, [];
      }
      var wait: real := *;
      OtherThreads(me, if wait >= 0.0 then wait else 0.0, false);
      TouchesStill(h0, h1, store.history, me);
      accepted, replies := AcceptLocked(me, hash, stamp, outages, checkedAt, h0);
    }

    // The attempts under the lock, on a cache that was fresh enough when it was checked.
    method AcceptLocked(me: nat, hash: Hash, stamp: real, outages: seq<Outage>, ghost checkedAt: real, ghost h0: seq<Era>)
      returns (accepted: Option<(KeyId, Key)>, ghost replies: seq<Reply>)
      requires Valid() && revision.Some? && checkedAt - successAt <= MAX_STALE_SECONDS && checkedAt <= store.now
      requires Extends(h0, store.history) && OnlyTouches(store.history, |h0|, me) && |outages| == CAS_ATTEMPTS
      modifies this, store
      ensures Valid() && Extends(h0, store.history) && OnlyTouches(store.history, |h0|, me)
      ensures old(store.now) <= store.now && NotOlder(old(revision), revision)
      ensures accepted.Some? ==>
        accepted.value.1.enabled && accepted.value.1.hash == hash &&
        HeldWithin(store.history, accepted.value.0, hash, checkedAt - MAX_STALE_SECONDS - loadDelay, store.now)
      ensures accepted.Some? ==> Lookup(items, accepted.value.0) == Some(accepted.value.1) && accepted.value.1.lastUsed == Some(stamp)
      ensures accepted.Some? ==> GivenUpLast(replies)
      ensures !old(Held(hash)) ==> accepted.None?
      ensures old(Held(hash)) && (old(revision) == Some(old(store.revision)) || old(HeldAndNoted(hash, stamp)) || outages[0].write) ==>
        accepted.Some?
      ensures accepted.None? ==>
        || LackedSince(store.history, hash, checkedAt - MAX_STALE_SECONDS - loadDelay)
        || exists k :: 0 <= k < CAS_ATTEMPTS && outages[k].read
    {
      hide History, SameButUsed, Evolved, Legit, HeldWithin, OnlyTouches, Extends, LackedSince;
      ghost var bound := checkedAt - MAX_STALE_SECONDS - loadDelay;
      var attempt := 0;
      replies := [];
      while true
        invariant 0 <= attempt < CAS_ATTEMPTS && |replies| == attempt && forall k | 0 <= k < |replies| :: replies[k] == Conflict
        invariant Valid() && Extends(h0, store.history) && OnlyTouches(store.history, |h0|, me)
        invariant checkedAt <= store.now && old(store.now) <= store.now
        invariant revision.Some? && NotOlder(old(revision), revision) && checkedAt - successAt <= MAX_STALE_SECONDS
        invariant attempt == 0 ==> items == old(items) && revision == old(revision) && flushes == old(flushes)
        invariant attempt == 0 ==> store.revision == old(store.revision)
        invariant attempt > 0 ==> Held(hash) && old(Held(hash)) && !old(HeldAndNoted(hash, stamp)) && !outages[0].write
        invariant attempt > 0 ==> old(revision) != Some(old(store.revision))
        decreases CAS_ATTEMPTS - attempt
      {
        var found := FindHash(hash);
        if found.None? {
          Lacking(store.history, items, revision.value, successAt, loadDelay, hash, checkedAt);
          return None, replies;
        }
        OneHolder(store.history, items, revision.value, successAt, loadDelay, found.value, hash);
        var reply := MarkUse(me, found.value, hash, stamp, outages[attempt].write, checkedAt, h0);
        replies := replies + [reply];
        if reply != Conflict {
          return Some((found.value, items[found.value])), replies;
        }
        ghost var h1 := store.history;
        var reloaded := ReloadLocked(me, outages[attempt].read);
        TouchesStill(h0, h1, store.history, me);
        if !reloaded {
          return None, replies;
        }
        found := FindHash(hash);
        if found.None? {
          Lacking(store.history, items, revision.value, successAt, loadDelay, hash, checkedAt);
          return None, replies;
        }
        if attempt + 1 >= CAS_ATTEMPTS {
          MarkCached(found.value, stamp);
          Witnessed(store.history, items, revision.value, successAt, loadDelay, found.value, hash, checkedAt, store.now);
          return Some((found.value, items[found.value])), replies;
        }
        attempt := attempt + 1;
      }
    }

    method MarkCached(id: KeyId, stamp: real)
      requires Valid() && revision.Some? && id in items
      modifies this`items
      ensures Valid() && items == old(items)[id := old(items)[id].(lastUsed := Some(stamp))]
    {
      hide SameButUsed, History;
      MarkedAlike(items, store.history[revision.value].keys, id, items[id].(lastUsed := Some(stamp)));
      items := items[id := items[id].(lastUsed := Some(stamp))];
    }

    // One attempt to record the use of an accepted key: in the cache only when the store has it recently or fails.
    method MarkUse(me: nat, id: KeyId, hash: Hash, stamp: real, down: bool, ghost checkedAt: real, ghost h0: seq<Era>)
      returns (reply: Reply)
      requires Valid() && revision.Some? && Accepts(items, id, hash)
      requires Extends(h0, store.history) && OnlyTouches(store.history, |h0|, me)
      requires checkedAt - successAt <= MAX_STALE_SECONDS && checkedAt <= store.now
      modifies this`items, this`revision, this`flushes, store`history, store`keys, store`revision
      ensures Valid() && Extends(h0, store.history) && OnlyTouches(store.history, |h0|, me)
      ensures revision.Some? && NotOlder(old(revision), revision)
      ensures reply == Conflict <==>
        !(id in old(flushes) && stamp - old(flushes[id]) < FLUSH_SECONDS) && !down && old(revision).value != old(store.revision)
      ensures reply.Stored? <==>
        !(id in old(flushes) && stamp - old(flushes[id]) < FLUSH_SECONDS) && !down && old(revision).value == old(store.revision)
      ensures reply.Stored? ==>
        && id in items && flushes == old(flushes)[id := stamp]
        && store.history == old(store.history) + [Era(store.now, me, Touched(id, items[id]), store.keys)]
      ensures !reply.Stored? ==> store.history == old(store.history) && flushes == old(flushes)
      ensures reply != Conflict ==>
        Accepts(items, id, hash) && items[id].lastUsed == Some(stamp) &&
        HeldWithin(store.history, id, hash, checkedAt - MAX_STALE_SECONDS - loadDelay, store.now)
    {
      hide History, SameButUsed, Legit, HeldWithin, OnlyTouches;
      var next := items[id].(lastUsed := Some(stamp));
      if id in flushes && stamp - flushes[id] < FLUSH_SECONDS {
        reply := Broken;
      } else {
        TouchIsLegit(store.history, items, revision.value, id, next);
        MutatedAlike(items, store.history[revision.value].keys, Touched(id, next));
        ghost var h := store.history;
        reply := store.Mutate(me, Touched(id, next), revision.value, down);
        if reply == Conflict {
          return;
        }
        if reply.Stored? {
          TouchWritten(h0, h, store.history[|h|], me);
          revision := Some(reply.revision);
          flushes := flushes[id := stamp];
        }
      }
      if !reply.Stored? {
        MarkedAlike(items, store.history[revision.value].keys, id, next);
      }
      items := items[id := next];
      Witnessed(store.history, items, revision.value, successAt, loadDelay, id, hash, checkedAt, store.now);
    }

    // ------------------------------------------------------------ creating, editing and deleting keys

    /** The edit asks for a name that another key of the role has, or for a key that may not be used. */
    ghost predicate Refuses(keys: Keys, id: KeyId, edit: Edit) reads this {
      id in keys &&
      (|| (edit.name.Some? && NameTaken(keys, edit.name.value, keys[id].role, Some(id)))
       || (edit.key.Some? && (edit.key.value == "" || edit.key.value == adminKey || HasHash(keys, digest(edit.key.value), Some(id)))))
    }

    // The hash of a new key: not empty, not the administrator's key, not in use by another key.
    method BuildKeyHash(rawKey: string, exclude: Option<KeyId>) returns (hash: Option<Hash>)
      ensures hash.Some? <==> rawKey != "" && rawKey != adminKey && !HasHash(items, digest(rawKey), exclude)
      ensures hash.Some? ==> hash.value == digest(rawKey)
    {
      if rawKey == "" || (adminKey != "" && rawKey == adminKey) || HasHash(items, digest(rawKey), exclude) {
        return None;
      }
      hash := Some(digest(rawKey));
    }

    ghost predicate Unfit(keys: Keys, rawKey: string) reads this {
      rawKey == "" || rawKey == adminKey || HasHash(keys, digest(rawKey), None)
    }

    // Every draw is used up: refused as a key, or already an id.
    ghost predicate Spent(keys: Keys, keyDraws: seq<string>, idDraws: seq<KeyId>) reads this {
      || (forall d | d in keyDraws :: Unfit(keys, d))
      || (forall d | d in idDraws :: d in keys)
    }

    method BuildName(name: string, role: Role, exclude: Option<KeyId>) returns (built: Option<string>)
      ensures built.None? <==> NameTaken(items, name, role, exclude)
      ensures built.Some? ==> !HasName(items, built.value, role, exclude)
      ensures built.Some? ==> if name == "" then IsDefaultName(built.value, role) else built.value == name
    {
      if name == "" {
        ghost var suffix;
        var candidate;
        candidate, suffix := BuildDefaultName(items, role, exclude);
        return Some(candidate);
      }
      built := if HasName(items, name, role, exclude) then None else Some(name);
    }

    // Draws random keys until one is new; the draws are the random source's output.
    method DrawKey(draws: seq<string>) returns (rawKey: Option<string>)
      ensures rawKey.Some? ==> rawKey.value in draws && rawKey.value != "" && rawKey.value != adminKey && !HasHash(items, digest(rawKey.value), None)
      ensures rawKey.None? ==> forall d | d in draws :: Unfit(items, d)
    {
      for i := 0 to |draws|
        invariant forall k | 0 <= k < i :: Unfit(items, draws[k])
      {
        var hash := BuildKeyHash(draws[i], None);
        if hash.Some? {
          return Some(draws[i]);
        }
      }
      rawKey := None;
    }

    method DrawId(draws: seq<KeyId>) returns (id: Option<KeyId>)
      ensures id.Some? ==> id.value in draws && id.value !in items
      ensures id.None? ==> forall d | d in draws :: d in items
    {
      for i := 0 to |draws|
        invariant forall k | 0 <= k < i :: draws[k] in items
      {
        if draws[i] !in items {
          return Some(draws[i]);
        }
      }
      id := None;
    }

    method Draw(keyDraws: seq<string>, idDraws: seq<KeyId>) returns (rawKey: Option<string>, id: Option<KeyId>)
      ensures rawKey.Some? ==> rawKey.value in keyDraws && rawKey.value != "" && rawKey.value != adminKey && !HasHash(items, digest(rawKey.value), None)
      ensures id.Some? ==> id.value in idDraws && id.value !in items
      ensures rawKey.None? || id.None? ==> Spent(items, keyDraws, idDraws)
    {
      hide Unfit;
      rawKey := DrawKey(keyDraws);
      id := DrawId(idDraws);
    }

    // Commits one change computed from a snapshot just loaded, and applies it to the cache.
    method Write(me: nat, change: Change, down: bool, ghost from: nat) returns (reply: Reply)
      requires Valid() && revision.Some? && items == store.history[revision.value].keys && Legit(items, change)
      requires from <= |store.history| && Written(store.history, from, me) == []
      modifies this`items, this`revision, store`history, store`keys, store`revision
      ensures Valid() && Extends(old(store.history), store.history)
      ensures Written(store.history, from, me) == if reply.Stored? then [change] else []
      ensures reply.Stored? ==> items == Mutated(old(items), change)
      ensures reply.Stored? ==> |store.history| >= 2 && store.history[|store.history| - 2].keys == old(items)
      ensures !reply.Stored? ==> store.history == old(store.history)
      ensures reply.Broken? <==> down
      ensures reply.Conflict? ==> old(revision).value + 1 < |store.history|
    {
      hide History, Legit, Mutated, Written, SameButUsed;
      ghost var h := store.history;
      reply := store.Mutate(me, change, revision.value, down);
      if reply.Stored? {
        OneWritten(h, store.history[|h|], from, me);
        SameAsItself(Mutated(items, change));
        items, revision := Mutated(items, change), Some(reply.revision);
      }
    }

    /** Creates a key under a fresh id, hash and name; the call commits exactly the key it returns, or nothing. */
    method CreateKey(me: nat, role: Role, name: string, stamp: real, keyDraws: seq<string>, idDraws: seq<KeyId>, outages: seq<Outage>)
      returns (result: Result<(KeyId, Key, string)>)
      requires Valid() && |outages| == CAS_ATTEMPTS
      modifies this, store
      ensures Valid() && Extends(old(store.history), store.history)
      ensures var written := Written(store.history, old(|store.history|), me);
        match result
        case Done((id, key, rawKey)) =>
          && written == [Created(id, key)] && id in items && items[id] == key
          && key == Key(key.name, role, digest(rawKey), true, stamp, None)
          && |store.history| >= 2 && IsNew(store.history[|store.history| - 2].keys, id, key)
          && rawKey in keyDraws && id in idDraws && rawKey != "" && rawKey != adminKey
          && if name == "" then IsDefaultName(key.name, role) else key.name == name
        case _ => written == []
      ensures !result.Missing?
      ensures result.Refused? ==> exists r: nat :: ShownSince(old(store.revision), store.history, r) && NameTaken(store.history[r].keys, name, role, None)
      ensures result.Unavailable? ==>
        || Failing(outages) || |store.history| >= old(|store.history|) + CAS_ATTEMPTS
        || exists r: nat :: ShownSince(old(store.revision), store.history, r) && Spent(store.history[r].keys, keyDraws, idDraws)
    {
      hide History, Legit, SameButUsed, Written, Evolved, NameTaken, IsDefaultName, Spent;
      ghost var h0 := store.history;
      NothingYet(h0, me);
      for attempt := 0 to CAS_ATTEMPTS
        invariant Valid() && Extends(h0, store.history) && Written(store.history, |h0|, me) == []
        invariant |store.history| >= |h0| + attempt
      {
        ghost var h := store.history;
        var loaded := ReloadLocked(me, outages[attempt].read);
        NothingMore(h, store.history, |h0|, me);
        if !loaded {
          return Unavailable;
        }
        assert ShownSince(old(store.revision), store.history, revision.value);
        var built := BuildName(name, role, None);
        if built.None? {
          return Refused;
        }
        var rawKey, id := Draw(keyDraws, idDraws);
        if rawKey.None? || id.None? {
          return Unavailable;
        }
        var key := Key(built.value, role, digest(rawKey.value), true, stamp, None);
        CreationIsLegit(items, id.value, key);
        assert IsNew(items, id.value, key);
        var reply := Write(me, Created(id.value, key), outages[attempt].write, |h0|);
        if reply.Stored? {
          return Done((id.value, key, rawKey.value));
        }
        if reply.Broken? {
          return Unavailable;
        }
      }
      result := Unavailable;
    }

    /** Edits a key; the call commits exactly the edit it returns, or nothing. */
    method UpdateKey(me: nat, id: KeyId, edit: Edit, role: Option<Role>, outages: seq<Outage>) returns (result: Result<Key>)
      requires Valid() && |outages| == CAS_ATTEMPTS
      modifies this, store
      ensures Valid() && Extends(old(store.history), store.history)
      ensures var written := Written(store.history, old(|store.history|), me);
        match result
        case Done(key) =>
          && written == [Updated(id, key)] && id in items && items[id] == key
          && |store.history| >= 2 && Lookup(store.history[|store.history| - 2].keys, id).Some?
          && Follows(edit, store.history[|store.history| - 2].keys[id], key)
          && (edit.key.Some? ==> key.hash == digest(edit.key.value))
          && HasRole(store.history[|store.history| - 2].keys, id, role)
        case _ => written == []
      ensures result.Missing? ==>
        id == "" || exists r: nat :: ShownSince(old(store.revision), store.history, r) && !HasRole(store.history[r].keys, id, role)
      ensures result.Refused? ==> exists r: nat :: ShownSince(old(store.revision), store.history, r) && Refuses(store.history[r].keys, id, edit)
      ensures result.Unavailable? ==> Failing(outages) || |store.history| >= old(|store.history|) + CAS_ATTEMPTS
    {
      hide History, Legit, SameButUsed, Written, Evolved, Follows, Refuses, HasRole;
      ghost var h0 := store.history;
      NothingYet(h0, me);
      if id == "" {
        return Missing;
      }
      for attempt := 0 to CAS_ATTEMPTS
        invariant Valid() && Extends(h0, store.history) && Written(store.history, |h0|, me) == []
        invariant |store.history| >= |h0| + attempt
      {
        var settled := UpdateOnce(me, id, edit, role, outages[attempt], |h0|);
        if settled.Some? {
          return settled.value;
        }
      }
      result := Unavailable;
    }

    // One attempt to edit a key; nothing if another change came first.
    method UpdateOnce(me: nat, id: KeyId, edit: Edit, role: Option<Role>, outage: Outage, ghost from: nat)
      returns (settled: Option<Result<Key>>)
      requires Valid() && from <= |store.history| && Written(store.history, from, me) == []
      modifies this, store
      ensures Valid() && Extends(old(store.history), store.history)
      ensures settled.Some? && settled.value.Done? ==>
        && var key := settled.value.value;
        && Written(store.history, from, me) == [Updated(id, key)] && id in items && items[id] == key
        && |store.history| >= 2 && Lookup(store.history[|store.history| - 2].keys, id).Some?
        && Follows(edit, store.history[|store.history| - 2].keys[id], key)
        && (edit.key.Some? ==> key.hash == digest(edit.key.value))
        && HasRole(store.history[|store.history| - 2].keys, id, role)
      ensures !(settled.Some? && settled.value.Done?) ==> Written(store.history, from, me) == []
      ensures settled.None? ==> |store.history| > old(|store.history|)
      ensures settled == Some(Missing) ==>
        exists r: nat :: ShownSince(old(store.revision), store.history, r) && !HasRole(store.history[r].keys, id, role)
      ensures settled == Some(Refused) ==>
        exists r: nat :: ShownSince(old(store.revision), store.history, r) && Refuses(store.history[r].keys, id, edit)
      ensures settled == Some(Unavailable) ==> outage.read || outage.write
    {
      hide History, Legit, SameButUsed, Written, Evolved, Follows, Refuses;
      ghost var h := store.history;
      var loaded := ReloadLocked(me, outage.read);
      NothingMore(h, store.history, from, me);
      if !loaded {
        return Some(Unavailable);
      }
      assert ShownSince(old(store.revision), store.history, revision.value);
      if id !in items || (role.Some? && items[id].role != role.value) {
        return Some(Missing);
      }
      var next := Edited(id, edit);
      if next.None? {
        return Some(Refused);
      }
      var reply := Write(me, Updated(id, next.value), outage.write, from);
      settled := if reply.Stored? then Some(Done(next.value)) else if reply.Broken? then Some(Unavailable) else None;
    }

    // The edited key, unless its new name or hash is refused.
    method Edited(id: KeyId, edit: Edit) returns (next: Option<Key>)
      requires id in items
      ensures next.None? <==> Refuses(items, id, edit)
      ensures next.Some? ==>
        && Legit(items, Updated(id, next.value))
        && Follows(edit, items[id], next.value)
        && (edit.key.Some? ==> next.value.hash == digest(edit.key.value))
    {
      var key := items[id];
      if edit.name.Some? {
        var built := BuildName(edit.name.value, key.role, Some(id));
        if built.None? {
          return None;
        }
        key := key.(name := built.value);
      }
      if edit.enabled.Some? {
        key := key.(enabled := edit.enabled.value);
      }
      if edit.key.Some? {
        var hash := BuildKeyHash(edit.key.value, Some(id));
        if hash.None? {
          return None;
        }
        key := key.(hash := hash.value);
      }
      next := Some(key);
    }

    /** Deletes a key; the call commits exactly that removal, or nothing. */
    method DeleteKey(me: nat, id: KeyId, role: Option<Role>, outages: seq<Outage>) returns (result: Result<()>)
      requires Valid() && |outages| == CAS_ATTEMPTS
      modifies this, store
      ensures Valid() && Extends(old(store.history), store.history)
      ensures Written(store.history, old(|store.history|), me) == if result.Done? then [Removed(id)] else []
      ensures result.Done? ==> id !in items && id !in flushes
      ensures result.Done? ==> |store.history| >= 2 && HasRole(store.history[|store.history| - 2].keys, id, role)
      ensures result.Missing? ==>
        id == "" || exists r: nat :: ShownSince(old(store.revision), store.history, r) && !HasRole(store.history[r].keys, id, role)
      ensures !result.Refused?
      ensures result.Unavailable? ==> Failing(outages) || |store.history| >= old(|store.history|) + CAS_ATTEMPTS
    {
      hide History, Legit, SameButUsed, Written, Evolved;
      ghost var h0 := store.history;
      NothingYet(h0, me);
      if id == "" {
        return Missing;
      }
      for attempt := 0 to CAS_ATTEMPTS
        invariant Valid() && Extends(h0, store.history) && Written(store.history, |h0|, me) == []
        invariant |store.history| >= |h0| + attempt
      {
        ghost var h := store.history;
        var loaded := ReloadLocked(me, outages[attempt].read);
        NothingMore(h, store.history, |h0|, me);
        if !loaded {
          return Unavailable;
        }
        assert ShownSince(old(store.revision), store.history, revision.value);
        if id !in items || (role.Some? && items[id].role != role.value) {
          return Missing;
        }
        RemovalIsLegit(items, id);
        var reply := Write(me, Removed(id), outages[attempt].write, |h0|);
        if reply.Stored? {
          flushes := flushes - {id};
          return Done(());
        }
        if reply.Broken? {
          return Unavailable;
        }
      }
      result := Unavailable;
    }
  }

  predicate NameTaken(keys: Keys, name: string, role: Role, exclude: Option<KeyId>) {
    name != "" && HasName(keys, name, role, exclude)
  }

  /** No key has the id, the hash or, within its role, the name of this one. */
  predicate IsNew(keys: Keys, id: KeyId, key: Key) {
    id !in keys && !HasHash(keys, key.hash, None) && !HasName(keys, key.name, key.role, None)
  }

  /** The key exists and has the role asked for, if one is. */
  predicate HasRole(keys: Keys, id: KeyId, role: Option<Role>) {
    id in keys && (role.Some? ==> keys[id].role == role.value)
  }

  /** A revision the store has shown since it was at the given one. */
  ghost predicate ShownSince(from: nat, h: seq<Era>, r: nat) {
    from <= r < |h|
  }

  predicate Failing(outages: seq<Outage>) {
    exists k :: 0 <= k < |outages| && (outages[k].read || outages[k].write)
  }

  lemma NothingYet(h: seq<Era>, me: nat)
    ensures Written(h, |h|, me) == [] && Extends(h, h)
  {
  }

  lemma NothingMore(h: seq<Era>, h': seq<Era>, from: nat, me: nat)
    requires Evolved(h, h', me) && from <= |h|
    ensures Written(h', from, me) == Written(h, from, me) && Extends(h, h')
  {
    NothingWritten(h, h', from, me);
  }

  lemma CreationIsLegit(keys: Keys, id: KeyId, key: Key)
    requires id !in keys && key.enabled && key.lastUsed == None
    requires !HasHash(keys, key.hash, None) && !HasName(keys, key.name, key.role, None)
    ensures Legit(keys, Created(id, key))
  {
  }

  lemma RemovalIsLegit(keys: Keys, id: KeyId)
    requires id in keys
    ensures Legit(keys, Removed(id))
  {
  }

  lemma NoneSince(h: seq<Era>, me: nat)
    ensures Evolved(h, h, me)
  {
  }

  lemma EvolvedTwice(h0: seq<Era>, h1: seq<Era>, h2: seq<Era>, me: nat)
    requires Evolved(h0, h1, me) && Evolved(h1, h2, me)
    ensures Evolved(h0, h2, me)
  {
    assert h2[..|h0|] == h2[..|h1|][..|h0|];
  }

  lemma EvolvedKeeps(h: seq<Era>, h': seq<Era>, me: nat, k: nat)
    requires Evolved(h, h', me) && k < |h|
    ensures |h| <= |h'| && h'[k] == h[k]
  {
    assert h'[..|h|][k] == h[k];
  }

  lemma SameAsItself(keys: Keys)
    ensures SameButUsed(keys, keys)
  {
  }

  lemma MarkedAlike(a: Keys, b: Keys, id: KeyId, next: Key)
    requires SameButUsed(a, b) && id in a && next == a[id].(lastUsed := next.lastUsed)
    ensures SameButUsed(a[id := next], b)
  {
  }

  lemma NoTouchesYet(h: seq<Era>, h': seq<Era>, me: nat)
    requires Evolved(h, h', me)
    ensures OnlyTouches(h', |h|, me) && Extends(h, h')
  {
  }

  lemma TouchesStill(h0: seq<Era>, h: seq<Era>, h': seq<Era>, me: nat)
    requires Extends(h0, h) && OnlyTouches(h, |h0|, me) && Evolved(h, h', me)
    ensures Extends(h0, h') && OnlyTouches(h', |h0|, me)
  {
    forall k | |h0| <= k < |h| && h'[k].caller == me ensures h'[k].change.Touched? {
      assert h'[..|h|][k] == h[k];
    }
    assert h'[..|h0|] == h'[..|h|][..|h0|];
  }

  lemma TouchWritten(h0: seq<Era>, h: seq<Era>, era: Era, me: nat)
    requires Extends(h0, h) && OnlyTouches(h, |h0|, me) && era.change.Touched?
    ensures Extends(h0, h + [era]) && OnlyTouches(h + [era], |h0|, me)
  {
    assert (h + [era])[..|h0|] == h[..|h0|];
  }

  ghost predicate OnlyTouches(h: seq<Era>, from: nat, me: nat) {
    forall k | from <= k < |h| && h[k].caller == me :: h[k].change.Touched?
  }

  /** At some revision that was still current at the given instant, or later, the store held no enabled key with the hash. */
  ghost predicate LackedSince(h: seq<Era>, hash: Hash, from: real) {
    exists r: nat :: r < |h| && StillShown(h, r, from) && NoneAccepts(h[r].keys, hash)
  }

  predicate StillShown(h: seq<Era>, r: nat, from: real) {
    r + 1 < |h| ==> from <= h[r + 1].since
  }

  ghost predicate NoneAccepts(keys: Keys, hash: Hash) {
    forall id :: !Accepts(keys, id, hash)
  }

  lemma Lacking(h: seq<Era>, items: Keys, r: nat, successAt: real, loadDelay: real, hash: Hash, checkedAt: real)
    requires Cached(h, items, Some(r), successAt, loadDelay) && forall id :: !Accepts(items, id, hash)
    requires checkedAt - successAt <= MAX_STALE_SECONDS
    ensures LackedSince(h, hash, checkedAt - MAX_STALE_SECONDS - loadDelay)
  {
    forall id ensures !Accepts(h[r].keys, id, hash) {
      assert !Accepts(items, id, hash);
      assert id in h[r].keys ==> id in items && items[id].(lastUsed := None) == h[r].keys[id].(lastUsed := None);
    }
    assert StillShown(h, r, checkedAt - MAX_STALE_SECONDS - loadDelay);
  }

  // A hash names one key of a cache.
  lemma OneHolder(h: seq<Era>, items: Keys, r: nat, successAt: real, loadDelay: real, id: KeyId, hash: Hash)
    requires History(h) && Cached(h, items, Some(r), successAt, loadDelay) && Accepts(items, id, hash)
    ensures forall other | Accepts(items, other, hash) :: other == id
  {
    AlwaysUnique(h, r);
    hide History;
    forall other | Accepts(items, other, hash) ensures other == id {
      assert items[id].(lastUsed := None) == h[r].keys[id].(lastUsed := None);
      assert items[other].(lastUsed := None) == h[r].keys[other].(lastUsed := None);
    }
  }

  // The cached revision was current at some instant of the span in which the cache may still be used.
  lemma Witnessed(h: seq<Era>, items: Keys, r: nat, successAt: real, loadDelay: real, id: KeyId, hash: Hash, checkedAt: real, now: real)
    requires History(h) && Cached(h, items, Some(r), successAt, loadDelay) && h[|h| - 1].since <= now && Accepts(items, id, hash)
    requires checkedAt - successAt <= MAX_STALE_SECONDS && checkedAt <= now && loadDelay >= 0.0
    ensures HeldWithin(h, id, hash, checkedAt - MAX_STALE_SECONDS - loadDelay, now)
  {
    var from := checkedAt - MAX_STALE_SECONDS - loadDelay;
    var t := if h[r].since >= from then h[r].since else from;
    SinceGrows(h, r, |h| - 1);
    assert items[id].(lastUsed := None) == h[r].keys[id].(lastUsed := None);
    assert CurrentAt(h, r, t);
  }

  lemma {:induction false} SinceGrows(h: seq<Era>, j: nat, k: nat)
    requires History(h) && j <= k < |h|
    ensures h[j].since <= h[k].since
  {
    hide AllUnique, Legit;
    if j < k {
      SinceGrows(h, j, k - 1);
    }
  }

  lemma TouchIsLegit(h: seq<Era>, items: Keys, r: nat, id: KeyId, next: Key)
    requires r < |h| && SameButUsed(items, h[r].keys) && id in items && items[id].enabled
    requires next == items[id].(lastUsed := next.lastUsed)
    ensures Legit(h[r].keys, Touched(id, next))
  {
    assert items[id].(lastUsed := None) == h[r].keys[id].(lastUsed := None);
  }
}
