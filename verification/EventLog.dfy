/** The bounded log of account operations (services/account_operation_events.py:190-302). */
module EventLog {
  import opened Accounts
  import opened Tails

  const EVENT_LIMIT := 500

  /** A logged operation: its sequence number and its cleaned text, kept abstract. */
  datatype Event<B> = Event(sequence: int, body: B)

  /** What a caller hands in: not a record at all, or one with a sequence that may be missing or unreadable. */
  datatype Raw<P> = Junk | Record(sequence: Option<int>, payload: P)

  function Bounded(limit: int): (n: nat)
    ensures n >= 1
  {
    var n := if limit == 0 then EVENT_LIMIT else limit;
    if n < 1 then 1 else n
  }

  function AtLeastOne(n: int): int {
    if n < 1 then 1 else n
  }

  function Normalised<P, B>(raw: Raw<P>, fallback: int, clean: P -> B): Option<Event<B>> {
    match raw
    case Junk => None
    case Record(sequence, payload) =>
      var n := if sequence == None || sequence == Some(0) then fallback else sequence.value;
      Some(Event(AtLeastOne(n), clean(payload)))
  }

  // The records among the entries, numbered by position where they carry no sequence.
  function AllNormalised<P, B>(raw: seq<Raw<P>>, clean: P -> B): seq<Event<B>> {
    if raw == [] then []
    else
      var last := Normalised(raw[|raw| - 1], |raw|, clean);
      AllNormalised(raw[..|raw| - 1], clean) + if last.Some? then [last.value] else []
  }

  /** How many of the entries are records. */
  function Records<P>(raw: seq<Raw<P>>): nat {
    if raw == [] then 0 else Records(raw[..|raw| - 1]) + if raw[|raw| - 1].Record? then 1 else 0
  }

  /** The event that a record becomes: the number it carries if that is a positive one, else its position where it carries
      none or zero, else 1. */
  ghost predicate Becomes<P, B>(record: Raw<P>, position: nat, event: Event<B>, clean: P -> B)
    requires record.Record?
  {
    && event.body == clean(record.payload)
    && (record.sequence.Some? && record.sequence.value >= 1 ==> event.sequence == record.sequence.value)
    && (record.sequence in {None, Some(0)} ==> event.sequence == position)
    && (record.sequence.Some? && record.sequence.value < 0 ==> event.sequence == 1)
  }

  /** Every record is there, in order, with the number it carries; entries that are no records leave no trace. */
  lemma {:induction false} NumbersAreKept<P, B>(raw: seq<Raw<P>>, clean: P -> B, i: nat)
    requires i < |raw| && raw[i].Record?
    ensures |AllNormalised(raw, clean)| == Records(raw) && Records(raw[..i]) < Records(raw)
    ensures Becomes(raw[i], i + 1, AllNormalised(raw, clean)[Records(raw[..i])], clean)
  {
    var n := |raw| - 1;
    NormalisedCount(raw[..n], clean);
    if i < n {
      assert raw[..n][..i] == raw[..i];
      NumbersAreKept(raw[..n], clean, i);
    }
  }

  lemma {:induction false} NormalisedCount<P, B>(raw: seq<Raw<P>>, clean: P -> B)
    ensures |AllNormalised(raw, clean)| == Records(raw)
  {
    if raw != [] {
      NormalisedCount(raw[..|raw| - 1], clean);
    }
  }

  method NormalizeEvents<P, B>(raw: seq<Raw<P>>, clean: P -> B, limit: int) returns (events: seq<Event<B>>)
    ensures events == Tail(AllNormalised(raw, clean), Bounded(limit))
  {
    events := [];
    for index := 0 to |raw|
      invariant events == AllNormalised(raw[..index], clean)
    {
      assert raw[..index + 1][..index] == raw[..index];
      var event := Normalised(raw[index], index + 1, clean);
      if event.Some? {
        events := events + [event.value];
      }
    }
    assert raw[..|raw|] == raw;
    events := Tail(events, Bounded(limit));
  }

  // ---------------------------------------------------------------- appending

  /** One more than every sequence number in the log. */
  function NextSequence<B>(events: seq<Event<B>>): (next: int)
    ensures next >= 1 && forall e | e in events :: e.sequence < next
  {
    if events == [] then 1
    else
      var next, last := NextSequence(events[..|events| - 1]), events[|events| - 1];
      assert forall e | e in events :: e in events[..|events| - 1] || e == last;
      if next < last.sequence + 1 then last.sequence + 1 else next
  }

  function Payloads<P>(additions: seq<Raw<P>>): seq<P> {
    if additions == [] then []
    else
      Payloads(additions[..|additions| - 1]) +
      match additions[|additions| - 1] case Junk => [] case Record(_, payload) => [payload]
  }

  /** The payloads as events with consecutive numbers. */
  function Stamped<P, B>(payloads: seq<P>, next: int, clean: P -> B): seq<Event<B>> {
    seq(|payloads|, i requires 0 <= i < |payloads| => Event(next + i, clean(payloads[i])))
  }

  /** The log after an append: the last entries of what it kept and what was added, numbered on. */
  function Appended<P, B>(events: seq<Event<B>>, additions: seq<Raw<P>>, clean: P -> B, limit: int): seq<Event<B>> {
    var kept := Tail(events, Bounded(limit));
    Tail(kept + Stamped(Payloads(additions), NextSequence(kept), clean), Bounded(limit))
  }

  method AppendEvents<P, B>(existing: seq<Event<B>>, additions: seq<Raw<P>>, clean: P -> B, limit: int) returns (events: seq<Event<B>>)
    ensures events == Appended(existing, additions, clean, limit)
  {
    hide Tail, Stamped, NextSequence, Payloads, Bounded;
    var bound := Bounded(limit);
    events := Tail(existing, bound);
    var nextSequence := NextSequence(events);
    ghost var kept, first := events, nextSequence;
    NothingAppended(existing, additions, clean, bound);
    for i := 0 to |additions|
      invariant nextSequence == first + |Payloads(additions[..i])|
      invariant events == Tail(kept + Stamped(Payloads(additions[..i]), first, clean), bound)
    {
      PayloadsMore(additions, i);
      if additions[i].Record? {
        var event := Event(AtLeastOne(nextSequence), clean(additions[i].payload));
        AppendStep(kept, Payloads(additions[..i]), additions[i].payload, first, clean, bound);
        events := Tail(events + [event], bound);
        nextSequence := nextSequence + 1;
      }
    }
    assert additions[..|additions|] == additions;
  }

  lemma NothingAppended<P, B>(existing: seq<Event<B>>, additions: seq<Raw<P>>, clean: P -> B, bound: nat)
    ensures var kept := Tail(existing, bound);
      Payloads(additions[..0]) == [] && kept == Tail(kept + Stamped(Payloads(additions[..0]), NextSequence(kept), clean), bound)
  {
    var kept := Tail(existing, bound);
    assert kept + Stamped(Payloads(additions[..0]), NextSequence(kept), clean) == kept;
  }

  lemma PayloadsMore<P>(additions: seq<Raw<P>>, i: nat)
    requires i < |additions|
    ensures Payloads(additions[..i + 1]) ==
            match additions[i] case Junk => Payloads(additions[..i]) case Record(_, payload) => Payloads(additions[..i]) + [payload]
  {
    assert additions[..i + 1][..i] == additions[..i];
    assert Payloads(additions[..i]) + [] == Payloads(additions[..i]);
  }

  lemma AppendStep<P, B>(kept: seq<Event<B>>, payloads: seq<P>, payload: P, first: int, clean: P -> B, bound: nat)
    ensures Tail(Tail(kept + Stamped(payloads, first, clean), bound) + [Event(first + |payloads|, clean(payload))], bound) ==
            Tail(kept + Stamped(payloads + [payload], first, clean), bound)
  {
    var event := Event(first + |payloads|, clean(payload));
    StampedMore(payloads, payload, first, clean);
    TrimEarly(kept + Stamped(payloads, first, clean), [event], bound);
    assert kept + Stamped(payloads, first, clean) + [event] == kept + (Stamped(payloads, first, clean) + [event]);
  }

  lemma StampedMore<P, B>(payloads: seq<P>, p: P, next: int, clean: P -> B)
    ensures Stamped(payloads + [p], next, clean) == Stamped(payloads, next, clean) + [Event(next + |payloads|, clean(p))]
  {
  }

  lemma {:induction false} PayloadsConcat<P>(a: seq<Raw<P>>, b: seq<Raw<P>>)
    ensures Payloads(a + b) == Payloads(a) + Payloads(b)
  {
    if b == [] {
      assert a + b == a;
    } else {
      assert (a + b)[..|a + b| - 1] == a + b[..|b| - 1];
      PayloadsConcat(a, b[..|b| - 1]);
    }
  }

  /** Numbers only grow: every event an append adds is numbered above everything the log kept, in order. */
  lemma NewAboveKept<P, B>(events: seq<Event<B>>, additions: seq<Raw<P>>, clean: P -> B, limit: int)
    ensures var kept := Tail(events, Bounded(limit));
      var added := Stamped(Payloads(additions), NextSequence(kept), clean);
      && (forall e, a | e in kept && a in added :: e.sequence < a.sequence)
      && (forall i, j | 0 <= i < j < |added| :: added[i].sequence < added[j].sequence)
  {
  }

  lemma {:induction false} NextAfterStamped<P, B>(events: seq<Event<B>>, payloads: seq<P>, clean: P -> B, limit: nat)
    requires limit >= 1 && payloads != []
    ensures var next := NextSequence(events);
      NextSequence(Tail(events + Stamped(payloads, next, clean), limit)) == next + |payloads|
  {
    var next := NextSequence(events);
    var all := events + Stamped(payloads, next, clean);
    var kept := Tail(all, limit);
    var last := all[|all| - 1];
    assert kept[|kept| - 1] == last && last.sequence == next + |payloads| - 1;
    assert forall e | e in kept :: e in all;
    assert forall e | e in all :: e in events || e in Stamped(payloads, next, clean);
    HighestIsLast(kept);
  }

  lemma {:induction false} HighestIsLast<B>(events: seq<Event<B>>)
    requires events != [] && events[|events| - 1].sequence >= 0
    requires forall e | e in events :: e.sequence <= events[|events| - 1].sequence
    ensures NextSequence(events) == events[|events| - 1].sequence + 1
  {
    NextIsTight(events[..|events| - 1], events[|events| - 1].sequence + 1);
  }

  lemma {:induction false} NextIsTight<B>(events: seq<Event<B>>, bound: int)
    requires bound >= 1 && forall e | e in events :: e.sequence < bound
    ensures NextSequence(events) <= bound
  {
    if events != [] {
      NextIsTight(events[..|events| - 1], bound);
    }
  }

  /** A batch is the fold of its parts: appending a then b gives what appending both at once gives. */
  lemma BatchIsFold<P, B>(events: seq<Event<B>>, a: seq<Raw<P>>, b: seq<Raw<P>>, clean: P -> B, limit: int)
    ensures Appended(Appended(events, a, clean, limit), b, clean, limit) == Appended(events, a + b, clean, limit)
  {
    hide NextSequence, Payloads, Bounded;
    var bound := Bounded(limit);
    var kept := Tail(events, bound);
    var next := NextSequence(kept);
    var pa, pb := Payloads(a), Payloads(b);
    PayloadsConcat(a, b);
    var mid := Appended(events, a, clean, limit);
    assert Tail(mid, bound) == mid;
    if pa == [] {
      assert pa + pb == pb && kept + Stamped(pa, next, clean) == kept;
    } else {
      NextAfterStamped(kept, pa, clean, bound);
      StampedConcat(pa, pb, next, clean);
      TrimEarly(kept + Stamped(pa, next, clean), Stamped(pb, next + |pa|, clean), bound);
      assert kept + Stamped(pa, next, clean) + Stamped(pb, next + |pa|, clean) == kept + Stamped(pa + pb, next, clean);
    }
  }

  lemma StampedConcat<P, B>(a: seq<P>, b: seq<P>, next: int, clean: P -> B)
    ensures Stamped(a + b, next, clean) == Stamped(a, next, clean) + Stamped(b, next + |a|, clean)
  {
  }

  // ---------------------------------------------------------------- runs of appends

  predicate Increasing<B>(events: seq<Event<B>>) {
    forall i, j | 0 <= i < j < |events| :: events[i].sequence < events[j].sequence
  }

  /** The log and everything ever logged, after a run of appends. */
  function Logged<P, B>(start: seq<Event<B>>, appends: seq<seq<Raw<P>>>, clean: P -> B, limit: int): (r: (seq<Event<B>>, seq<Event<B>>))
    decreases |appends|
  {
    if appends == [] then (start, start)
    else
      var (log, history) := Logged(start, appends[..|appends| - 1], clean, limit);
      var additions := appends[|appends| - 1];
      (Appended(log, additions, clean, limit),
       history + Stamped(Payloads(additions), NextSequence(Tail(log, Bounded(limit))), clean))
  }

  /** Over any run that starts from a log in order, the log is the end of the history, and no number is used twice,
      whatever was cut off in between. */
  lemma {:induction false} NoNumberIsReused<P, B>(start: seq<Event<B>>, appends: seq<seq<Raw<P>>>, clean: P -> B, limit: int)
    requires Increasing(start) && |start| <= Bounded(limit) && (start != [] ==> start[0].sequence >= 1)
    ensures var (log, history) := Logged(start, appends, clean, limit);
      && log == Tail(history, Bounded(limit)) && Increasing(history) && start <= history
      && (history != [] ==> history[0].sequence >= 1)
    decreases |appends|
  {
    if appends != [] {
      var n := |appends| - 1;
      NoNumberIsReused(start, appends[..n], clean, limit);
      var (log, history) := Logged(start, appends[..n], clean, limit);
      var bound := Bounded(limit);
      assert Tail(log, bound) == log;
      var payloads := Payloads(appends[n]);
      var added := Stamped(payloads, NextSequence(log), clean);
      TrimEarly(history, added, bound);
      NumberedOn(log, history, added, bound);
    }
  }

  lemma NumberedOn<B>(log: seq<Event<B>>, history: seq<Event<B>>, added: seq<Event<B>>, bound: nat)
    requires bound >= 1 && log == Tail(history, bound) && Increasing(history) && (history != [] ==> history[0].sequence >= 1)
    requires forall i | 0 <= i < |added| :: added[i].sequence == NextSequence(log) + i
    ensures Increasing(history + added) && (history + added != [] ==> (history + added)[0].sequence >= 1)
  {
    if history != [] {
      assert log[|log| - 1] == history[|history| - 1] && log[|log| - 1] in log;
    }
  }

  /** Exactly when an append, with at least one event to add, numbers above everything the log ever had before the cut:
      when the cut drops no number that is as high as the highest it keeps. */
  lemma NewAboveDroppedIff<P, B>(events: seq<Event<B>>, additions: seq<Raw<P>>, clean: P -> B, limit: int)
    requires Payloads(additions) != []
    ensures var kept := Tail(events, Bounded(limit));
      var added := Stamped(Payloads(additions), NextSequence(kept), clean);
      (forall e, a | e in events && a in added :: e.sequence < a.sequence) <==> NextSequence(kept) == NextSequence(events)
  {
    var kept := Tail(events, Bounded(limit));
    var added := Stamped(Payloads(additions), NextSequence(kept), clean);
    assert added[0] in added && added[0].sequence == NextSequence(kept);
    assert forall e | e in kept :: e in events;
    NextIsTight(kept, NextSequence(events));
    if forall e, a | e in events && a in added :: e.sequence < a.sequence {
      NextIsTight(events, NextSequence(kept));
    }
  }

  /** It happens: the highest number is dropped and given out again. */
  lemma OutOfOrderReuses<P, B>(x: B, p: P, clean: P -> B)
    ensures var log := [Event(5, x), Event(4, x)];
      Appended(log, [Record(None, p)], clean, 1) == [Event(5, clean(p))]
  {
    var log := [Event(5, x), Event(4, x)];
    assert Tail(log, 1) == [Event(4, x)];
    assert NextSequence([Event(4, x)]) == 5 by { HighestIsLast([Event(4, x)]); }
    var raw: Raw<P> := Record(None, p);
    assert [raw][..0] == [] && Payloads([raw]) == [p];
    assert Stamped([p], 5, clean) == [Event(5, clean(p))];
  }
}
