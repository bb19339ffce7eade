/** Counting image results once per idempotency key (services/account_service.py:314-329, 1079-1084, 4287-4371). */
module ImageResults {
  import opened Accounts
  import opened AccountMerge
  import opened Tails

  const KEY_LENGTH := 256
  const KEY_LIMIT := 256

  const QUOTA_UNKNOWN := Other("image_quota_unknown")
  const STATUS := Other("status")
  const RESTORE_AT := Other("restore_at")
  const EMPTY_AT := Other("last_quota_estimated_empty_at")
  const QUOTA_FIELDS := {Quota, EMPTY_AT, QUOTA_UNKNOWN, STATUS, RESTORE_AT}
  const LIMITED := "限流"
  const NORMAL := "正常"

  datatype Result = Result(key: string, success: bool, quotaConsumed: Option<bool>, now: string)

  function Truncated(key: string): (t: string)
    ensures |t| <= KEY_LENGTH
  {
    if |key| <= KEY_LENGTH then key else key[..KEY_LENGTH]
  }

  /** The characters that stripping takes away: Unicode white space. */
  predicate Blank(c: char) {
    var n := c as int;
    || 9 <= n <= 13 || 28 <= n <= 32 || n == 0x85 || n == 0xA0 || n == 0x1680 || 0x2000 <= n <= 0x200A
    || n == 0x2028 || n == 0x2029 || n == 0x202F || n == 0x205F || n == 0x3000
  }

  predicate Stripped(s: string) {
    s == "" || (!Blank(s[0]) && !Blank(s[|s| - 1]))
  }

  function StripLeft(s: string): (r: string)
    ensures |r| <= |s| && (r != "" ==> !Blank(r[0])) && (s != "" && !Blank(s[0]) ==> r == s)
  {
    if s != "" && Blank(s[0]) then StripLeft(s[1..]) else s
  }

  function StripRight(s: string): (r: string)
    ensures r <= s && (r != "" ==> !Blank(r[|r| - 1]))
    ensures s != "" && !Blank(s[|s| - 1]) ==> r == s
    ensures s != "" && !Blank(s[0]) ==> r != ""
  {
    if s != "" && Blank(s[|s| - 1]) then StripRight(s[..|s| - 1]) else s
  }

  function Strip(s: string): (r: string)
    ensures Stripped(r) && |r| <= |s| && (Stripped(s) ==> r == s)
    ensures s != "" && !Blank(s[0]) ==> r != ""
  {
    StripRight(StripLeft(s))
  }

  /** A key as it is compared: stripped, then cut. The cut may end in a blank again. */
  function Form(key: string): (form: string)
    ensures |form| <= KEY_LENGTH && (form != "" ==> Strip(form) != "")
    ensures |key| <= KEY_LENGTH ==> form == Strip(key)
  {
    Truncated(Strip(key))
  }

  // The non-empty key forms, each at its first occurrence.
  function Distinct(items: seq<string>): seq<string> {
    if items == [] then []
    else
      var first, key := Distinct(items[..|items| - 1]), Form(items[|items| - 1]);
      if key == "" || key in first then first else first + [key]
  }

  function NormalisedKeys(value: Option<Value>): seq<string> {
    if value.Some? && value.value.Texts? then Tail(Distinct(value.value.items), KEY_LIMIT) else []
  }

  method NormalizeKeys(value: Option<Value>) returns (keys: seq<string>)
    ensures keys == NormalisedKeys(value)
  {
    if !(value.Some? && value.value.Texts?) {
      return [];
    }
    keys := [];
    var items := value.value.items;
    var seen: set<string> := {};
    for i := 0 to |items|
      invariant keys == Distinct(items[..i]) && seen == set k | k in keys
    {
      assert items[..i + 1][..i] == items[..i];
      var key := Form(items[i]);
      if key != "" && key !in seen {
        seen := seen + {key};
        keys := keys + [key];
      }
    }
    assert items[..|items|] == items;
    keys := Tail(keys, KEY_LIMIT);
  }

  function KeysOf(a: Account): seq<string> {
    NormalisedKeys(Lookup(a, ResultKeys))
  }

  // ---------------------------------------------------------------- one result

  function Consumed(r: Result): bool {
    if r.quotaConsumed.Some? then r.quotaConsumed.value else r.success
  }

  function QuotaSpent(a: Account, now: string): Account {
    var spent :=
      if Lookup(a, QUOTA_UNKNOWN) == Some(Flag(true)) then a
      else
        var quota := if Number(a, Quota) < 0 then 0 else Number(a, Quota);
        var less := a[Quota := Num(if quota < 1 then 0 else quota - 1)];
        if quota <= 1 then less[QUOTA_UNKNOWN := Flag(true)][EMPTY_AT := Text(now)] else less;
    if TextOf(spent, STATUS) == LIMITED then spent[STATUS := Text(NORMAL)][QUOTA_UNKNOWN := Flag(true)][RESTORE_AT := Null]
    else spent
  }

  /** The stored list after one more key: cut to the limit, then normalised again with the account. */
  function KeysWith(keys: seq<string>, form: string): seq<string> {
    NormalisedKeys(Some(Texts(Tail(keys + [form], KEY_LIMIT))))
  }

  /** The account with the use, the key and the success noted. */
  function Used(a: Account, r: Result): Account {
    var used := a[LastUsedAt := Text(r.now)];
    var keyed := if Form(r.key) == "" then used else used[ResultKeys := Texts(KeysWith(KeysOf(a), Form(r.key)))];
    if r.success then keyed[Success := Num(Number(keyed, Success) + 1)] else keyed
  }

  /** The account after a result that is counted. */
  function Counted(a: Account, r: Result): Account {
    var spent := if Consumed(r) then QuotaSpent(Used(a, r), r.now) else Used(a, r);
    if r.success then spent else spent[Fail := Num(Number(spent, Fail) + 1)]
  }

  predicate Repeats(a: Account, r: Result) {
    Form(r.key) != "" && Form(r.key) in KeysOf(a)
  }

  /** One call: a repeated key or a stale credential generation changes nothing, nor does a save that fails. */
  datatype Call = Call(result: Result, current: bool, saved: bool)

  function Recorded(a: Account, c: Call): Account {
    if Repeats(a, c.result) || !c.current || !c.saved then a else Counted(a, c.result)
  }

  function Total(a: Account): int {
    Number(a, Success) + Number(a, Fail)
  }

  /** The result uses quota up: as it says itself, or if it says nothing, when it is a success. */
  predicate Spends(r: Result) {
    r.quotaConsumed == Some(true) || (r.quotaConsumed.None? && r.success)
  }

  /** Between a and b one use was spent: a known quota fell by one, never below zero, reaching zero made it unknown, and a
      limited status ended. */
  ghost predicate SpentOnce(a: Account, b: Account, now: string) {
    var known := Lookup(a, QUOTA_UNKNOWN) != Some(Flag(true));
    var left := Number(a, Quota) - 1;
    var limited := TextOf(a, STATUS) == LIMITED;
    && Number(b, Quota) == (if !known then Number(a, Quota) else if left < 0 then 0 else left)
    && Lookup(b, EMPTY_AT) == (if known && left <= 0 then Some(Text(now)) else Lookup(a, EMPTY_AT))
    && Lookup(b, QUOTA_UNKNOWN) == (if (known && left <= 0) || limited then Some(Flag(true)) else Lookup(a, QUOTA_UNKNOWN))
    && Lookup(b, STATUS) == (if limited then Some(Text(NORMAL)) else Lookup(a, STATUS))
    && Lookup(b, RESTORE_AT) == (if limited then Some(Null) else Lookup(a, RESTORE_AT))
  }

  lemma SpendingEffects(a: Account, now: string)
    ensures SpentOnce(a, QuotaSpent(a, now), now)
    ensures forall f | f !in QUOTA_FIELDS :: Lookup(QuotaSpent(a, now), f) == Lookup(a, f)
  {
  }

  // The other fields do not matter for what was spent.
  lemma SpentElsewhere(a: Account, won: Account, spent: Account, b: Account, now: string)
    requires SpentOnce(won, spent, now)
    requires forall f | f in QUOTA_FIELDS :: Lookup(won, f) == Lookup(a, f) && Lookup(b, f) == Lookup(spent, f)
    ensures SpentOnce(a, b, now)
  {
    assert Quota in QUOTA_FIELDS && STATUS in QUOTA_FIELDS;
  }

  lemma UsedEffects(a: Account, r: Result)
    ensures Number(Used(a, r), Success) == Number(a, Success) + (if r.success then 1 else 0)
    ensures Lookup(Used(a, r), LastUsedAt) == Some(Text(r.now))
    ensures forall f | f !in {Success, LastUsedAt, ResultKeys} :: Lookup(Used(a, r), f) == Lookup(a, f)
  {
    hide KeysOf, KeysWith, Form;
  }

  /** A counted result raises the counter of its outcome and leaves the other one alone, and it is the account's last use.
      Apart from that, and from the remembered keys, only a result that spends changes anything, and only the quota. */
  lemma CountedEffects(a: Account, r: Result)
    ensures var b := Counted(a, r);
      && Number(b, Success) == Number(a, Success) + (if r.success then 1 else 0)
      && Number(b, Fail) == Number(a, Fail) + (if r.success then 0 else 1)
      && Lookup(b, LastUsedAt) == Some(Text(r.now))
    ensures Spends(r) ==> SpentOnce(a, Counted(a, r), r.now)
    ensures forall f | f !in {Success, Fail, LastUsedAt, ResultKeys} && (Spends(r) ==> f !in QUOTA_FIELDS) ::
      Lookup(Counted(a, r), f) == Lookup(a, f)
  {
    hide QuotaSpent, SpentOnce, Used;
    var used := Used(a, r);
    var spent := if Consumed(r) then QuotaSpent(used, r.now) else used;
    UsedEffects(a, r);
    SpendingEffects(used, r.now);
    assert Lookup(spent, Success) == Lookup(used, Success) && Lookup(spent, Fail) == Lookup(used, Fail);
    if Spends(r) {
      SpentElsewhere(a, used, spent, Counted(a, r), r.now);
    }
  }

  lemma KeysNoted(a: Account, r: Result)
    ensures Lookup(Counted(a, r), ResultKeys) ==
      if Form(r.key) == "" then Lookup(a, ResultKeys) else Some(Texts(KeysWith(KeysOf(a), Form(r.key))))
  {
    hide KeysOf, KeysWith, Form, Consumed, Number, TextOf;
  }

  lemma CountedOnce(a: Account, r: Result)
    ensures Total(Counted(a, r)) == Total(a) + 1
    ensures Lookup(Counted(a, r), ResultKeys) ==
      if Form(r.key) == "" then Lookup(a, ResultKeys) else Some(Texts(KeysWith(KeysOf(a), Form(r.key))))
  {
    CountedEffects(a, r);
    KeysNoted(a, r);
    hide Counted, KeysOf, KeysWith, Form;
  }

  // ---------------------------------------------------------------- the remembered keys

  predicate Clean(keys: seq<string>) {
    && (forall i | 0 <= i < |keys| :: keys[i] != "" && |keys[i]| <= KEY_LENGTH && Stripped(keys[i]))
    && (forall i, j | 0 <= i < j < |keys| :: keys[i] != keys[j])
  }

  /** What an account remembers: at most 256 distinct keys, none with a blank at either end. */
  predicate Remembered(keys: seq<string>) {
    |keys| <= KEY_LIMIT && Clean(keys)
  }

  lemma CleanMore(keys: seq<string>, key: string)
    requires Clean(keys) && key !in keys && key != "" && |key| <= KEY_LENGTH && Stripped(key)
    ensures Clean(keys + [key])
  {
    hide Stripped;
  }

  lemma CleanTail(keys: seq<string>, limit: nat)
    requires Clean(keys)
    ensures Clean(Tail(keys, limit))
  {
    hide Stripped;
  }

  predicate Short(items: seq<string>) {
    forall i | 0 <= i < |items| :: |items[i]| <= KEY_LENGTH
  }

  lemma {:induction false} DistinctRemembers(items: seq<string>)
    requires Short(items)
    ensures Clean(Distinct(items))
  {
    hide Stripped, Strip, Truncated;
    if items != [] {
      var first, key := Distinct(items[..|items| - 1]), Form(items[|items| - 1]);
      DistinctRemembers(items[..|items| - 1]);
      assert key == Strip(items[|items| - 1]);
      hide Clean;
      if key != "" && key !in first {
        CleanMore(first, key);
      }
    }
  }

  /** Normalising keys that are short enough already gives a list that can be remembered. */
  lemma NormalisedRemembers(items: seq<string>)
    requires Short(items)
    ensures Remembered(NormalisedKeys(Some(Texts(items))))
  {
    hide Clean, Form;
    DistinctRemembers(items);
    CleanTail(Distinct(items), KEY_LIMIT);
  }

  lemma {:induction false} DistinctIsShort(items: seq<string>)
    ensures Short(Distinct(items))
  {
    hide Strip, Truncated;
    if items != [] {
      DistinctIsShort(items[..|items| - 1]);
    }
  }

  /** So does an account of the pool, whose list was normalised when it was loaded and is normalised again when read. */
  lemma LoadedRemembers(a: Account, raw: Option<Value>)
    requires Lookup(a, ResultKeys) == None || Lookup(a, ResultKeys) == Some(Texts(NormalisedKeys(raw)))
    ensures Remembered(KeysOf(a))
  {
    hide Form, Stripped;
    if raw.Some? && raw.value.Texts? {
      DistinctIsShort(raw.value.items);
    }
    NormalisedRemembers(NormalisedKeys(raw));
  }

  lemma {:induction false} DistinctFixed(keys: seq<string>)
    requires Clean(keys)
    ensures Distinct(keys) == keys
  {
    hide Stripped, Strip, Truncated;
    if keys != [] {
      var n := |keys| - 1;
      var first, key := keys[..n], keys[n];
      DistinctFixed(first);
      assert key !in first;
      assert Form(key) == key;
      assert keys == first + [key];
    }
  }

  lemma ShortTail(keys: seq<string>)
    requires Remembered(keys)
    ensures Tail(keys, KEY_LIMIT) == keys
  {
  }

  lemma RememberedStays(keys: seq<string>)
    requires Remembered(keys)
    ensures NormalisedKeys(Some(Texts(keys))) == keys
  {
    hide Form, Stripped;
    DistinctFixed(keys);
  }

  /** The remembered list after one more key: the oldest makes room, and the key is added unless its stripped form is there. */
  function Noted(memory: seq<string>, form: string): seq<string> {
    var kept := Tail(memory, KEY_LIMIT - 1);
    if Strip(form) in kept then kept else kept + [Strip(form)]
  }

  lemma KeptRemembered(memory: seq<string>)
    requires Remembered(memory)
    ensures Remembered(Tail(memory, KEY_LIMIT - 1))
    ensures forall k | k in Tail(memory, KEY_LIMIT - 1) :: k in memory
  {
    hide Stripped;
  }

  lemma KeysWithIsNoted(memory: seq<string>, form: string)
    requires Remembered(memory) && form != "" && |form| <= KEY_LENGTH && Strip(form) != ""
    ensures KeysWith(memory, form) == Noted(memory, form) && Remembered(Noted(memory, form))
  {
    hide Stripped, Strip, Truncated, Remembered, Clean, Distinct;
    var kept := Tail(memory, KEY_LIMIT - 1);
    KeptRemembered(memory);
    assert Tail(memory + [form], KEY_LIMIT) == kept + [form];
    OneMoreDistinct(kept, form);
    assert KeysWith(memory, form) == NormalisedKeys(Some(Texts(kept + [form])));
    NormalisedRemembers(kept + [form]);
  }

  // Normalising a remembered list with one more form appends what that form is stored as.
  lemma OneMoreDistinct(kept: seq<string>, form: string)
    requires Remembered(kept) && form != "" && |form| <= KEY_LENGTH && Strip(form) != ""
    ensures Short(kept + [form])
    ensures Distinct(kept + [form]) == if Strip(form) in kept then kept else kept + [Strip(form)]
  {
    hide Stripped, Strip, Truncated;
    DistinctFixed(kept);
    assert (kept + [form])[..|kept|] == kept;
    assert Form(form) == Strip(form);
  }

  /** Once a result was counted, exactly these keys are taken for repeats: those still remembered, and the one its own key
      is stored as. So the same key is recognised iff its form has no blank at the end. */
  lemma RecognisedAfter(a: Account, counted: Result, next: Result)
    requires Remembered(KeysOf(a)) && Form(counted.key) != "" && !Repeats(a, counted)
    ensures Repeats(Counted(a, counted), next) <==>
            Form(next.key) != "" && (Form(next.key) in Tail(KeysOf(a), KEY_LIMIT - 1) || Form(next.key) == Strip(Form(counted.key)))
    ensures Repeats(Counted(a, counted), counted) <==> Stripped(Form(counted.key))
  {
    hide Counted, Form, Stripped, Strip, NormalisedKeys;
    CountedOnce(a, counted);
    KeysWithIsNoted(KeysOf(a), Form(counted.key));
    KeptRemembered(KeysOf(a));
    assert KeysOf(Counted(a, counted)) == Noted(KeysOf(a), Form(counted.key)) by {
      hide Noted, KeysWith;
      RememberedStays(Noted(KeysOf(a), Form(counted.key)));
    }
  }

  // ---------------------------------------------------------------- runs of one process

  function After(a: Account, calls: seq<Call>): Account
    decreases |calls|
  {
    if calls == [] then a else Recorded(After(a, calls[..|calls| - 1]), calls[|calls| - 1])
  }

  predicate Counts(memory: seq<string>, c: Call) {
    c.current && c.saved && Form(c.result.key) !in memory
  }

  /** The keys remembered after a run that started with the given ones. */
  function Memory(start: seq<string>, calls: seq<Call>): seq<string>
    decreases |calls|
  {
    if calls == [] then start
    else
      var before, c := Memory(start, calls[..|calls| - 1]), calls[|calls| - 1];
      if Counts(before, c) && Form(c.result.key) != "" then Noted(before, Form(c.result.key)) else before
  }

  /** Every key counted so far, oldest first, starting from the ones the account remembered. */
  function CountedKeys(start: seq<string>, calls: seq<Call>): seq<string>
    decreases |calls|
  {
    if calls == [] then start
    else
      var n := |calls| - 1;
      var before, form := CountedKeys(start, calls[..n]), Form(calls[n].result.key);
      if Counts(Memory(start, calls[..n]), calls[n]) && form != "" then before + [form] else before
  }

  /** Why a counted result adds to the counters although it brings no new key. */
  datatype Reason = NewKey | WithoutKey | ForgottenKey | UnstableKey

  function ReasonOf(before: seq<string>, form: string): Reason {
    if form == "" then WithoutKey
    else if form !in before then NewKey
    else if Stripped(form) then ForgottenKey
    else UnstableKey
  }

  /** How many results were counted for the given reason. */
  function CountedFor(start: seq<string>, calls: seq<Call>, reason: Reason): nat
    decreases |calls|
  {
    if calls == [] then 0
    else
      var n := |calls| - 1;
      var form := Form(calls[n].result.key);
      CountedFor(start, calls[..n], reason) +
      if Counts(Memory(start, calls[..n]), calls[n]) && ReasonOf(CountedKeys(start, calls[..n]), form) == reason then 1 else 0
  }

  function Keys(s: seq<string>): set<string> {
    set k | k in s
  }

  lemma NoEmptyKey(keys: seq<string>)
    requires Remembered(keys)
    ensures "" !in keys
  {
  }

  // One call changes the counters and the remembered keys as its memory says.
  lemma RecordedAsNoted(a: Account, memory: seq<string>, c: Call)
    requires KeysOf(a) == memory && Remembered(memory)
    ensures Total(Recorded(a, c)) == Total(a) + if Counts(memory, c) then 1 else 0
    ensures !Counts(memory, c) ==> Recorded(a, c) == a
    ensures var next := if Counts(memory, c) && Form(c.result.key) != "" then Noted(memory, Form(c.result.key)) else memory;
      KeysOf(Recorded(a, c)) == next && Remembered(next)
  {
    hide Counted, Remembered, Form, NormalisedKeys, Noted, KeysWith;
    NoEmptyKey(memory);
    if Counts(memory, c) {
      CountedOnce(a, c.result);
      if Form(c.result.key) != "" {
        KeysWithIsNoted(memory, Form(c.result.key));
        RememberedStays(Noted(memory, Form(c.result.key)));
      }
    }
  }

  /** The account remembers exactly the memory of the run, keyless results, stale calls and failed saves included. */
  lemma {:induction false} RemembersMemory(a: Account, calls: seq<Call>)
    requires Remembered(KeysOf(a))
    ensures KeysOf(After(a, calls)) == Memory(KeysOf(a), calls) && Remembered(Memory(KeysOf(a), calls))
    decreases |calls|
  {
    hide Recorded, Remembered, KeysOf, Counts, Noted, Form;
    if calls != [] {
      var n := |calls| - 1;
      RemembersMemory(a, calls[..n]);
      RecordedAsNoted(After(a, calls[..n]), Memory(KeysOf(a), calls[..n]), calls[n]);
    }
  }

  // ---------------------------------------------------------------- the window

  // The key counted at i is still remembered, no further from the end than it is in the history.
  ghost predicate Near(memory: seq<string>, counted: seq<string>, i: nat) {
    i < |counted| && exists p :: 0 <= p < |memory| && memory[p] == counted[i] && |memory| - p <= |counted| - i
  }

  lemma NotedStaysNear(memory: seq<string>, counted: seq<string>, form: string, i: nat)
    requires Remembered(memory) && form !in memory && i <= |counted| && |counted| + 1 - i <= KEY_LIMIT
    requires if i < |counted| then Near(memory, counted, i) else Stripped(form)
    ensures Near(Noted(memory, form), counted + [form], i)
  {
    hide Stripped, Remembered;
    var kept, next := Tail(memory, KEY_LIMIT - 1), Noted(memory, form);
    if i == |counted| {
      assert Strip(form) == form;
      assert form !in kept;
      assert next[|next| - 1] == (counted + [form])[i];
    } else {
      var p :| 0 <= p < |memory| && memory[p] == counted[i] && |memory| - p <= |counted| - i;
      var q := p - (|memory| - |kept|);
      assert 0 <= q < |kept| && kept[q] == memory[p];
      assert next[q] == (counted + [form])[i];
    }
  }

  lemma NearItself(keys: seq<string>, i: nat)
    requires i < |keys|
    ensures Near(keys, keys, i)
  {
    var p := i;
    assert 0 <= p < |keys| && keys[p] == keys[i];
  }

  lemma {:induction false} MemoryRemembered(start: seq<string>, calls: seq<Call>)
    requires Remembered(start)
    ensures Remembered(Memory(start, calls))
    decreases |calls|
  {
    hide Remembered, Noted, KeysWith, Counts;
    if calls != [] {
      var n := |calls| - 1;
      MemoryRemembered(start, calls[..n]);
      var form := Form(calls[n].result.key);
      if form != "" {
        KeysWithIsNoted(Memory(start, calls[..n]), form);
      }
    }
  }

  lemma {:induction false} WindowIsNear(start: seq<string>, calls: seq<Call>, i: nat)
    requires Remembered(start)
    requires var counted := CountedKeys(start, calls); i < |counted| && |counted| - i <= KEY_LIMIT && Stripped(counted[i])
    ensures Near(Memory(start, calls), CountedKeys(start, calls), i) && Remembered(Memory(start, calls))
    decreases |calls|
  {
    hide Stripped, Remembered, Noted, Form, Near;
    MemoryRemembered(start, calls);
    if calls == [] {
      NearItself(start, i);
    } else {
      var n := |calls| - 1;
      var memory, counted, form := Memory(start, calls[..n]), CountedKeys(start, calls[..n]), Form(calls[n].result.key);
      MemoryRemembered(start, calls[..n]);
      if i < |counted| {
        WindowIsNear(start, calls[..n], i);
      }
      if Counts(memory, calls[n]) && form != "" {
        NotedStaysNear(memory, counted, form, i);
      }
    }
  }

  /** Repeating a key before 256 others were counted changes no counter, no quota and no key list exactly if the form of the
      key does not end in a blank; otherwise every such result is counted, however often it comes. */
  lemma RepeatInWindowChangesNothing(a: Account, calls: seq<Call>, c: Call, i: nat)
    requires Remembered(KeysOf(a))
    requires var counted := CountedKeys(KeysOf(a), calls);
      i < |counted| && |counted| - i <= KEY_LIMIT && counted[i] == Form(c.result.key)
    ensures Stripped(Form(c.result.key)) ==> After(a, calls + [c]) == After(a, calls)
    ensures c.current && c.saved && !Stripped(Form(c.result.key)) ==> Total(After(a, calls + [c])) == Total(After(a, calls)) + 1
  {
    hide Recorded, Remembered, KeysOf, Stripped, Form, CountedKeys, Memory, Noted;
    var memory := Memory(KeysOf(a), calls);
    RemembersMemory(a, calls);
    RecordedAsNoted(After(a, calls), memory, c);
    assert (calls + [c])[..|calls|] == calls;
    if Stripped(Form(c.result.key)) {
      WindowIsNear(KeysOf(a), calls, i);
    } else if Form(c.result.key) in memory {
      OnlyStripped(memory, Form(c.result.key));
    }
  }

  lemma OnlyStripped(memory: seq<string>, form: string)
    requires Remembered(memory) && form in memory
    ensures Stripped(form)
  {
  }

  /** If every key counted has a stable form, the account remembers exactly the last 256 of them. */
  lemma {:induction false} StableMemory(start: seq<string>, calls: seq<Call>)
    requires Remembered(start) && forall k | k in CountedKeys(start, calls) :: Stripped(k)
    ensures Memory(start, calls) == Tail(CountedKeys(start, calls), KEY_LIMIT)
    decreases |calls|
  {
    hide Stripped, Remembered, Noted, Form, Strip;
    if calls == [] {
      ShortTail(start);
    } else {
      var n := |calls| - 1;
      var memory, counted, form := Memory(start, calls[..n]), CountedKeys(start, calls[..n]), Form(calls[n].result.key);
      assert forall k | k in counted :: k in CountedKeys(start, calls);
      StableMemory(start, calls[..n]);
      MemoryRemembered(start, calls[..n]);
      if Counts(memory, calls[n]) && form != "" {
        assert form in CountedKeys(start, calls);
        NotedStable(memory, form);
        TrimEarly(counted, [form], KEY_LIMIT);
      }
    }
  }

  lemma NotedStable(memory: seq<string>, form: string)
    requires Remembered(memory) && Stripped(form) && form !in memory
    ensures Noted(memory, form) == Tail(memory + [form], KEY_LIMIT)
  {
    KeptRemembered(memory);
    hide Remembered, Stripped;
    assert Strip(form) == form;
  }

  /** Whatever is remembered is the stripped form of a key that was counted, or was remembered from the start. */
  lemma {:induction false} MemoryOrigin(start: seq<string>, calls: seq<Call>, k: string)
    requires Remembered(start) && k in Memory(start, calls)
    ensures exists h :: h in CountedKeys(start, calls) && Strip(h) == k
    decreases |calls|
  {
    hide Stripped, Remembered, Form, Strip;
    if calls == [] {
      OnlyStripped(start, k);
      assert Strip(k) == k;
    } else {
      var n := |calls| - 1;
      var memory, form := Memory(start, calls[..n]), Form(calls[n].result.key);
      MemoryRemembered(start, calls[..n]);
      KeptRemembered(memory);
      if k in memory {
        MemoryOrigin(start, calls[..n], k);
        var h :| h in CountedKeys(start, calls[..n]) && Strip(h) == k;
        assert h in CountedKeys(start, calls);
      } else {
        assert form in CountedKeys(start, calls);
      }
    }
  }

  /** A key that was never counted is counted when it comes, unless a counted key with an unstable form is stored as it. */
  lemma FreshKeyCounts(a: Account, calls: seq<Call>, c: Call)
    requires Remembered(KeysOf(a)) && c.current && c.saved && Form(c.result.key) !in CountedKeys(KeysOf(a), calls)
    ensures Total(After(a, calls + [c])) == Total(After(a, calls)) + 1 <==> Form(c.result.key) !in Memory(KeysOf(a), calls)
    ensures Form(c.result.key) in Memory(KeysOf(a), calls) ==>
      exists h :: h in CountedKeys(KeysOf(a), calls) && !Stripped(h) && Strip(h) == Form(c.result.key)
  {
    hide Recorded, Remembered, KeysOf, Stripped, Form, CountedKeys, Memory, Noted, Strip;
    var form := Form(c.result.key);
    RemembersMemory(a, calls);
    RecordedAsNoted(After(a, calls), Memory(KeysOf(a), calls), c);
    assert (calls + [c])[..|calls|] == calls;
    if form in Memory(KeysOf(a), calls) {
      MemoryOrigin(KeysOf(a), calls, form);
      var h :| h in CountedKeys(KeysOf(a), calls) && Strip(h) == form;
      assert Stripped(h) ==> Strip(h) == h;
    }
  }

  /** Both failures occur: a key of 255 letters, a blank and more is counted again, and the 255 letters alone, a different
      key, are taken for its repeat. */
  lemma UnstableKeyCountsAgain(a: Account, letters: string, success: bool, now: string)
    requires Remembered(KeysOf(a)) && |letters| == KEY_LENGTH - 1 && letters !in KeysOf(a)
    requires forall i | 0 <= i < |letters| :: !Blank(letters[i])
    ensures var long, short := Result(letters + " y", success, None, now), Result(letters, success, None, now);
      && Form(long.key) != Form(short.key) && !Repeats(a, long) && !Repeats(a, short)
      && !Repeats(Counted(a, long), long) && Repeats(Counted(a, long), short)
  {
    hide Counted, NormalisedKeys, Remembered;
    var long, short := Result(letters + " y", success, None, now), Result(letters, success, None, now);
    var form := Form(long.key);
    assert form == letters + " " && Form(short.key) == letters by {
      hide Strip, Blank;
      assert Blank(' ') && !Blank('y') by { BlankOnly(); }
    }
    assert Strip(form) == letters && !Stripped(form) by {
      assert form[..|form| - 1] == letters;
      assert Blank(form[|form| - 1]);
      hide Blank;
      assert StripRight(form) == StripRight(letters);
    }
    hide Form, Strip, Stripped, Blank;
    if form in KeysOf(a) {
      OnlyStripped(KeysOf(a), form);
    }
    RecognisedAfter(a, long, long);
    RecognisedAfter(a, long, short);
  }

  lemma BlankOnly()
    ensures Blank(' ') && !Blank('y')
  {
  }

  // ---------------------------------------------------------------- totals over a run

  /** Over any run of one process the counters grow by the number of distinct keys counted, plus the counted results without
      a key, plus the repeats of keys forgotten since, plus the repeats of keys whose form is unstable. */
  lemma {:induction false} EachKeyCountsOnce(a: Account, calls: seq<Call>)
    requires Remembered(KeysOf(a))
    ensures var start := KeysOf(a);
      Total(After(a, calls)) - Total(a) ==
      |Keys(CountedKeys(start, calls)) - Keys(start)| + CountedFor(start, calls, WithoutKey) +
      CountedFor(start, calls, ForgottenKey) + CountedFor(start, calls, UnstableKey)
    ensures Keys(CountedKeys(KeysOf(a), calls)) >= Keys(KeysOf(a))
    decreases |calls|
  {
    hide Recorded, Remembered, KeysOf, Form, Stripped, Noted, Memory;
    if calls != [] {
      var n := |calls| - 1;
      var start := KeysOf(a);
      EachKeyCountsOnce(a, calls[..n]);
      RemembersMemory(a, calls[..n]);
      RecordedAsNoted(After(a, calls[..n]), Memory(start, calls[..n]), calls[n]);
      OneKeyMore(start, CountedKeys(start, calls[..n]), Form(calls[n].result.key));
    }
  }

  lemma OneKeyMore(start: seq<string>, before: seq<string>, key: string)
    requires Keys(before) >= Keys(start)
    ensures |Keys(before + [key]) - Keys(start)| == |Keys(before) - Keys(start)| + if key in before then 0 else 1
    ensures Keys(before + [key]) >= Keys(start)
  {
    assert Keys(before + [key]) == Keys(before) + {key};
    if key in before {
      assert Keys(before) + {key} == Keys(before);
    } else {
      assert key !in Keys(start);
      assert Keys(before) + {key} - Keys(start) == Keys(before) - Keys(start) + {key};
    }
  }

  /** A key counts as forgotten only after at least 256 others: at its repeat, none of the last 256 keys counted is it. */
  lemma ForgottenIsLate(a: Account, calls: seq<Call>, c: Call, i: nat)
    requires Remembered(KeysOf(a)) && Counts(Memory(KeysOf(a), calls), c)
    requires ReasonOf(CountedKeys(KeysOf(a), calls), Form(c.result.key)) == ForgottenKey
    requires i < |CountedKeys(KeysOf(a), calls)| && CountedKeys(KeysOf(a), calls)[i] == Form(c.result.key)
    ensures |CountedKeys(KeysOf(a), calls)| - i > KEY_LIMIT
  {
    hide Remembered, KeysOf, Form, Stripped, Noted, Memory, CountedKeys;
    if |CountedKeys(KeysOf(a), calls)| - i <= KEY_LIMIT {
      WindowIsNear(KeysOf(a), calls, i);
    }
  }

  // ---------------------------------------------------------------- two processes

  /** A merge keeps one key list whole: the remote one if the local one is unchanged since the baseline, else the local one. */
  lemma KeysAfterMerge(b: Account, l: Account, r: Account)
    ensures KeysOf(MergedAccount(b, l, r)) == KeysOf(if Lookup(b, ResultKeys) == Lookup(l, ResultKeys) then r else l)
  {
    MergedFieldLookup(b, l, r, ResultKeys);
    hide MergedAccount, NormalisedKeys;
  }

  /** Exactly once is a promise of one process. After a merge, for any three accounts: a key the remote side had counted is
      counted again iff the local list changed and lacks it, and a key the local side had counted iff the local list is
      unchanged and the remote one has dropped it. */
  lemma CountedAgainAfterMerge(b: Account, l: Account, r: Account, c: Call)
    requires Form(c.result.key) != "" && c.current && c.saved
    ensures var m := MergedAccount(b, l, r);
      var key, changed := Form(c.result.key), Lookup(b, ResultKeys) != Lookup(l, ResultKeys);
      var again := Total(Recorded(m, c)) == Total(m) + 1;
      && (key in KeysOf(r) ==> (again <==> changed && key !in KeysOf(l)))
      && (key in KeysOf(l) ==> (again <==> !changed && key !in KeysOf(r)))
  {
    KeysAfterMerge(b, l, r);
    CountedOnce(MergedAccount(b, l, r), c.result);
    hide MergedAccount, KeysOf, Counted, Form;
  }

  /** Both conditions occur: two processes that count different keys at the same time merge their counters but keep only
      one key list, so the other key counts again. */
  lemma KeysAreLostAcrossProcesses(base: Account, one: string, two: string)
    requires one != two && one != "" && two != "" && |one| <= KEY_LENGTH && |two| <= KEY_LENGTH && Stripped(one) && Stripped(two)
    requires base == map[Success := Num(0), Fail := Num(0), Quota := Num(9)]
    ensures var local := Counted(base, Result(one, true, Some(false), "t"));
      var remote := Counted(base, Result(two, true, Some(false), "t"));
      var merged := MergedAccount(base, local, remote);
      Number(merged, Success) == 2 && KeysOf(merged) == [one] && !Repeats(merged, Result(two, true, Some(false), "t"))
  {
    hide Counted, MergedAccount, NormalisedKeys, Form, Stripped;
    var local := Counted(base, Result(one, true, Some(false), "t"));
    var remote := Counted(base, Result(two, true, Some(false), "t"));
    var merged := MergedAccount(base, local, remote);
    FirstWin(base, one);
    FirstWin(base, two);
    MergedFieldLookup(base, local, remote, Success);
    assert Lookup(merged, Success) == Some(Num(2));
    assert KeysOf(merged) == [one] by {
      KeysAfterMerge(base, local, remote);
      RememberedStays([one]);
    }
    NotRepeated(merged, Result(two, true, Some(false), "t"), two);
  }

  lemma NotRepeated(a: Account, result: Result, key: string)
    requires result.key == key && |key| <= KEY_LENGTH && Stripped(key) && key !in KeysOf(a)
    ensures !Repeats(a, result)
  {
  }

  lemma FirstWin(base: Account, key: string)
    requires key != "" && |key| <= KEY_LENGTH && Stripped(key) && base == map[Success := Num(0), Fail := Num(0), Quota := Num(9)]
    ensures var a := Counted(base, Result(key, true, Some(false), "t"));
      Lookup(a, ResultKeys) == Some(Texts([key])) && Lookup(a, Success) == Some(Num(1))
  {
    hide Stripped, Strip, Truncated;
    assert KeysOf(base) == [] && Form(key) == key;
    KeysWithIsNoted([], key);
    assert Noted([], key) == [key];
  }
}
