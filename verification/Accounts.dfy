/** The account pool's data: accounts are field dictionaries, a view maps access tokens to accounts. */
module Accounts {

  datatype Option<+T> = None | Some(value: T)

  type Token = string
  type AccountId = string

  datatype Field =
    | AccessToken
    | ManagementId
    | RefreshToken
    | LastTokenRefreshAt
    | LastUsedAt
    | Success
    | Fail
    | Quota
    | ResultKeys
    | Other(name: string)

  datatype Value = Null | Flag(on: bool) | Num(n: int) | Text(s: string) | Texts(items: seq<string>)

  type Account = map<Field, Value>
  type View = map<Token, Account>

  function Lookup<K, V>(m: map<K, V>, k: K): Option<V> {
    if k in m then Some(m[k]) else None
  }

  function IdOf(a: Account): AccountId {
    if ManagementId in a && a[ManagementId].Text? then a[ManagementId].s else ""
  }

  function Number(a: Account, f: Field): int {
    if f in a && a[f].Num? then a[f].n else 0
  }

  // Missing, null and empty text read alike.
  function TextOf(a: Account, f: Field): string {
    if f in a && a[f].Text? then a[f].s else ""
  }

  /** What account normalisation guarantees for an account stored under token t. */
  predicate Normalised(t: Token, a: Account) {
    && Lookup(a, AccessToken) == Some(Text(t))
    && ManagementId in a && a[ManagementId].Text? && a[ManagementId].s != ""
    && (forall f | f in {Success, Fail, Quota} :: f in a && a[f].Num? && a[f].n >= 0)
  }

  /** A token never passes from one account to another between two views. */
  ghost predicate SameOwners(v: View, w: View) {
    forall t | t in v && t in w :: IdOf(v[t]) == IdOf(w[t])
  }

  ghost predicate HasEntry(v: View, id: AccountId) {
    exists t :: t in v && IdOf(v[t]) == id
  }

  /** The token under which a view holds the account. */
  ghost function Entry(v: View, id: AccountId): (e: Option<Token>)
    ensures e.None? <==> !HasEntry(v, id)
    ensures e.Some? ==> e.value in v && IdOf(v[e.value]) == id
  {
    if HasEntry(v, id) then
      var t :| t in v && IdOf(v[t]) == id;
      Some(t)
    else
      None
  }

  /** A loaded view: normalised accounts, keyed by their token, each the only one with its management id. */
  ghost predicate WellFormed(v: View) {
    forall t | t in v :: Normalised(t, v[t]) && Entry(v, IdOf(v[t])) == Some(t)
  }
}
