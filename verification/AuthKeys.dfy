/** Dedicated keys, their uniqueness and their history in the shared store (services/auth_service.py). */
module AuthKeys {
  import opened Accounts

  const CAS_ATTEMPTS := 4
  const REFRESH_INTERVAL_SECONDS := 5.0
  const MAX_STALE_SECONDS := 30.0
  const FLUSH_SECONDS := 60.0

  type KeyId = string
  type Hash = string

  datatype Role = Admin | User
  datatype Key = Key(name: string, role: Role, hash: Hash, enabled: bool, createdAt: real, lastUsed: Option<real>)
  type Keys = map<KeyId, Key>

  predicate HasHash(keys: Keys, hash: Hash, exclude: Option<KeyId>) {
    exists id :: id in keys && exclude != Some(id) && keys[id].hash == hash
  }

  predicate HasName(keys: Keys, name: string, role: Role, exclude: Option<KeyId>) {
    exists id :: id in keys && exclude != Some(id) && keys[id].role == role && keys[id].name == name
  }

  /** No two keys share a hash, and no two keys of a role share a name; ids are the map's keys. */
  predicate AllUnique(keys: Keys) {
    && (forall i, j | i in keys && j in keys && keys[i].hash == keys[j].hash :: i == j)
    && (forall i, j | i in keys && j in keys && keys[i].role == keys[j].role && keys[i].name == keys[j].name :: i == j)
  }

  // ---------------------------------------------------------------- what one committed mutation does

  datatype Change =
    | Seeded
    | Created(id: KeyId, key: Key)
    | Updated(id: KeyId, key: Key)
    | Removed(id: KeyId)
    | Touched(id: KeyId, key: Key)

  function Mutated(keys: Keys, change: Change): Keys {
    match change
    case Seeded => keys
    case Created(id, key) => keys[id := key]
    case Updated(id, key) => keys[id := key]
    case Removed(id) => keys - {id}
    case Touched(id, key) => keys[id := key]
  }

  /** The changes the service commits: fresh keys, valid edits, removals, and use marks of enabled keys. */
  predicate Legit(keys: Keys, change: Change) {
    match change
    case Seeded => false
    case Created(id, key) =>
      && id !in keys && key.enabled && key.lastUsed == None
      && !HasHash(keys, key.hash, None) && !HasName(keys, key.name, key.role, None)
    case Updated(id, key) =>
      && id in keys && key.role == keys[id].role && key.createdAt == keys[id].createdAt && key.lastUsed == keys[id].lastUsed
      && (key.hash == keys[id].hash || !HasHash(keys, key.hash, Some(id)))
      && (key.name == keys[id].name || !HasName(keys, key.name, key.role, Some(id)))
    case Removed(id) => id in keys
    case Touched(id, key) => id in keys && keys[id].enabled && key == keys[id].(lastUsed := key.lastUsed)
  }

  lemma LegitKeepsUnique(keys: Keys, change: Change)
    requires AllUnique(keys) && Legit(keys, change)
    ensures AllUnique(Mutated(keys, change))
  {
    var after := Mutated(keys, change);
    forall i, j | i in after && j in after && after[i].hash == after[j].hash ensures i == j {
      assert i in keys || j in keys || i == j;
    }
    forall i, j | i in after && j in after && after[i].role == after[j].role && after[i].name == after[j].name ensures i == j {
      assert i in keys || j in keys || i == j;
    }
  }

  /** A use mark creates, revives, removes and re-enables nothing: it changes one key's last use. */
  lemma TouchChangesOnlyLastUse(keys: Keys, change: Change, id: KeyId)
    requires Legit(keys, change) && change.Touched?
    ensures var after := Mutated(keys, change);
      && (id in after <==> id in keys)
      && (id in keys ==> after[id].(lastUsed := None) == keys[id].(lastUsed := None))
      && (id in keys && after[id] != keys[id] ==> id == change.id && keys[id].enabled)
  {
  }

  // ---------------------------------------------------------------- the store's history

  /** The store's content from one committed mutation to the next, with the caller that committed it. */
  datatype Era = Era(since: real, caller: nat, change: Change, keys: Keys)

  ghost predicate History(h: seq<Era>) {
    && h != [] && AllUnique(h[0].keys)
    && forall k | 0 < k < |h| ::
         h[k - 1].since <= h[k].since && Legit(h[k - 1].keys, h[k].change) && h[k].keys == Mutated(h[k - 1].keys, h[k].change)
  }

  /** Whatever callers and processes interleave, ids, hashes and names stay unique in every state of the store. */
  lemma {:induction false} AlwaysUnique(h: seq<Era>, k: nat)
    requires History(h) && k < |h|
    ensures AllUnique(h[k].keys)
  {
    hide AllUnique, Legit;
    if k > 0 {
      AlwaysUnique(h, k - 1);
      LegitKeepsUnique(h[k - 1].keys, h[k].change);
    }
  }

  predicate CurrentAt(h: seq<Era>, k: nat, t: real) {
    k < |h| && h[k].since <= t && (k + 1 < |h| ==> t <= h[k + 1].since)
  }

  predicate Accepts(keys: Keys, id: KeyId, hash: Hash) {
    id in keys && keys[id].enabled && keys[id].hash == hash
  }

  /** At some instant of the span the store held the key, enabled, with that hash. */
  ghost predicate HeldWithin(h: seq<Era>, id: KeyId, hash: Hash, from: real, to: real) {
    exists k: nat, t: real :: from <= t <= to && CurrentAt(h, k, t) && Accepts(h[k].keys, id, hash)
  }

  /** The mutations one caller committed since the history had the given length. */
  function Written(h: seq<Era>, from: nat, me: nat): seq<Change>
    decreases |h|
  {
    if |h| <= from then []
    else
      var last := h[|h| - 1];
      Written(h[..|h| - 1], from, me) + if last.caller == me then [last.change] else []
  }

  ghost predicate Extends(h: seq<Era>, h': seq<Era>) {
    |h| <= |h'| && h'[..|h|] == h
  }

  // Others have written in the meantime, the caller has not.
  lemma {:induction false} NothingWritten(h: seq<Era>, h': seq<Era>, from: nat, me: nat)
    requires Extends(h, h') && from <= |h| && forall k | |h| <= k < |h'| :: h'[k].caller != me
    ensures Written(h', from, me) == Written(h, from, me)
    decreases |h'|
  {
    if |h'| == |h| {
      assert h' == h;
    } else {
      NothingWritten(h, h'[..|h'| - 1], from, me);
    }
  }

  lemma OneWritten(h: seq<Era>, era: Era, from: nat, me: nat)
    requires from <= |h| && era.caller == me
    ensures Written(h + [era], from, me) == Written(h, from, me) + [era.change]
  {
    assert (h + [era])[..|h|] == h;
  }

  // ---------------------------------------------------------------- caches

  /** The same keys, whatever their last use. */
  predicate SameButUsed(a: Keys, b: Keys) {
    a.Keys == b.Keys && forall id | id in a :: a[id].(lastUsed := None) == b[id].(lastUsed := None)
  }

  lemma MutatedAlike(a: Keys, b: Keys, change: Change)
    requires SameButUsed(a, b)
    ensures SameButUsed(Mutated(a, change), Mutated(b, change))
  {
  }

  // ---------------------------------------------------------------- default names

  function DefaultName(role: Role): string {
    if role == Admin then "管理员密钥" else "普通用户"
  }

  function Digit(n: nat): char
    requires n < 10
  {
    ['0', '1', '2', '3', '4', '5', '6', '7', '8', '9'][n]
  }

  function Decimal(n: nat): (digits: string)
    ensures digits != ""
  {
    if n < 10 then [Digit(n)] else Decimal(n / 10) + [Digit(n % 10)]
  }

  lemma {:induction false} DecimalInjective(m: nat, n: nat)
    requires Decimal(m) == Decimal(n)
    ensures m == n
  {
    var a, b := Decimal(m), Decimal(n);
    assert a[|a| - 1] == Digit(m % 10) && b[|b| - 1] == Digit(n % 10);
    if m >= 10 && n >= 10 {
      assert a[..|a| - 1] == Decimal(m / 10) && b[..|b| - 1] == Decimal(n / 10);
      DecimalInjective(m / 10, n / 10);
    }
  }

  // The base name, then the base name with 2, 3, ...
  function Candidate(role: Role, suffix: nat): string
    requires suffix >= 1
  {
    if suffix == 1 then DefaultName(role) else DefaultName(role) + " " + Decimal(suffix)
  }

  lemma CandidatesDiffer(role: Role, m: nat, n: nat)
    requires 1 <= m && 1 <= n && Candidate(role, m) == Candidate(role, n)
    ensures m == n
  {
    var base := DefaultName(role);
    if m > 1 && n > 1 {
      assert Candidate(role, m)[|base| + 1..] == Decimal(m) && Candidate(role, n)[|base| + 1..] == Decimal(n);
      DecimalInjective(m, n);
    }
  }

  function Rivals(keys: Keys, role: Role, exclude: Option<KeyId>): set<KeyId> {
    set id | id in keys && exclude != Some(id) && keys[id].role == role
  }

  predicate Named(keys: Keys, ids: set<KeyId>, name: string) {
    exists id :: id in ids && id in keys && keys[id].name == name
  }

  // Distinct names that are all taken belong to distinct keys.
  lemma {:induction false} TakenNamesNeedKeys(keys: Keys, role: Role, n: nat, ids: set<KeyId>)
    requires forall s | 1 <= s <= n :: Named(keys, ids, Candidate(role, s))
    ensures n <= |ids|
    decreases n
  {
    if n > 0 {
      assert Named(keys, ids, Candidate(role, n));
      var id :| id in ids && id in keys && keys[id].name == Candidate(role, n);
      forall s | 1 <= s <= n - 1 ensures Named(keys, ids - {id}, Candidate(role, s)) {
        assert Named(keys, ids, Candidate(role, s));
        var i :| i in ids && i in keys && keys[i].name == Candidate(role, s);
        if i == id {
          CandidatesDiffer(role, s, n);
        }
        assert i in ids - {id};
      }
      TakenNamesNeedKeys(keys, role, n - 1, ids - {id});
    }
  }

  /** The default name is the first free candidate; the search ends within one suffix more than the role has keys. */
  method BuildDefaultName(keys: Keys, role: Role, exclude: Option<KeyId>) returns (name: string, ghost suffix: nat)
    ensures 1 <= suffix <= |Rivals(keys, role, exclude)| + 1 && name == Candidate(role, suffix)
    ensures !HasName(keys, name, role, exclude)
    ensures forall s | 1 <= s < suffix :: HasName(keys, Candidate(role, s), role, exclude)
  {
    var rivals := Rivals(keys, role, exclude);
    name := DefaultName(role);
    suffix := 1;
    if !HasName(keys, name, role, exclude) {
      return;
    }
    var next := 2;
    while true
      invariant next >= 2 && forall s | 1 <= s < next :: HasName(keys, Candidate(role, s), role, exclude)
      decreases |rivals| + 2 - next
    {
      SearchBound(keys, role, exclude, next - 1);
      name := DefaultName(role) + " " + Decimal(next);
      suffix := next;
      if !HasName(keys, name, role, exclude) {
        return;
      }
      SearchBound(keys, role, exclude, next);
      next := next + 1;
    }
  }

  lemma SearchBound(keys: Keys, role: Role, exclude: Option<KeyId>, n: nat)
    requires forall s | 1 <= s <= n :: HasName(keys, Candidate(role, s), role, exclude)
    ensures n <= |Rivals(keys, role, exclude)|
  {
    forall s | 1 <= s <= n ensures Named(keys, Rivals(keys, role, exclude), Candidate(role, s)) {
      assert HasName(keys, Candidate(role, s), role, exclude);
    }
    TakenNamesNeedKeys(keys, role, n, Rivals(keys, role, exclude));
  }
}
