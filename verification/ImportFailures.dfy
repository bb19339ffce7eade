/** Exact failure totals of a remote import although only recent details are kept (services/account_import_job.py). */
module ImportFailures {
  import opened Accounts
  import opened Tails

  const DETAILS_LIMIT := 20
  const CHECKPOINT_ITEMS := 20
  const CHECKPOINT_SECONDS := 0.25

  const INVALID_DATA := "账号数据无效，未导入"

  type JobId = string

  /** A failure: of which account, and what went wrong. */
  datatype Error = Error(name: string, message: string)

  datatype Status = Added | Skipped | Invalid

  /** The persisted job: counts may be absent or negative in an old record. */
  datatype Job = Job(id: JobId, failedTotal: int, failed: int, errors: seq<Error>, completed: int)

  /** The fields an update names. */
  datatype Updates = Updates(failedTotal: Option<int>, failed: Option<int>, errors: Option<seq<Error>>, completed: Option<int>)

  function AsCount(n: int): nat {
    if n < 0 then 0 else n
  }

  function Most(a: nat, b: nat): nat {
    if a < b then b else a
  }

  /** How many failures a job accounts for. */
  function StoredTotal(job: Job): nat {
    Most(Most(AsCount(job.failedTotal), AsCount(job.failed)), |job.errors|)
  }

  function OrElse<T>(o: Option<T>, default: T): T {
    if o.Some? then o.value else default
  }

  function ReportedTotal(u: Updates): nat {
    Most(Most(AsCount(OrElse(u.failedTotal, 0)), AsCount(OrElse(u.failed, 0))), |OrElse(u.errors, [])|)
  }

  function NextFailedTotal(current: Job, u: Updates): nat {
    var errors := OrElse(u.errors, []);
    if ReportedTotal(u) >= StoredTotal(current) then ReportedTotal(u)
    else if current.errors != [] && current.errors <= errors then StoredTotal(current) + |errors| - |current.errors|
    else StoredTotal(current)
  }

  /** A bounded detail list never lowers the stored count. */
  lemma NeverLowers(current: Job, u: Updates)
    ensures NextFailedTotal(current, u) >= StoredTotal(current)
    ensures NextFailedTotal(current, u) >= ReportedTotal(u)
  {
  }

  // What a worker reports that resumed from the kept details and knows nothing else: the details, and how many.
  function TailReport(errors: seq<Error>): Updates {
    Updates(None, Some(|errors|), Some(errors), None)
  }

  /** For such a worker the count is exact, unless details were dropped before and it adds at least as many as are missing:
      then the report alone reaches the stored count and replaces it. */
  lemma ResumedReportIsExactWhen(current: Job, more: seq<Error>)
    requires current.errors != []
    ensures NextFailedTotal(current, TailReport(current.errors + more)) == StoredTotal(current) + |more| <==>
            more == [] || StoredTotal(current) == |current.errors| || |more| < StoredTotal(current) - |current.errors|
  {
    assert current.errors <= current.errors + more;
  }

  // ---------------------------------------------------------------- the accumulator

  predicate Counts(u: Updates) {
    u.errors.Some? || u.failed.Some? || u.failedTotal.Some?
  }

  function UpdatedJob(current: Job, u: Updates): Job {
    var total := NextFailedTotal(current, u);
    Job(current.id,
        if Counts(u) then total else current.failedTotal,
        if Counts(u) then total else current.failed,
        OrElse(u.errors, current.errors),
        OrElse(u.completed, current.completed))
  }

  class FailureAccumulator {
    const limit: nat
    var kept: seq<Error>
    var total: nat
    ghost const origin: seq<Error>
    ghost const base: nat
    ghost var recorded: seq<Error>

    /** The total is what the job had plus everything recorded since; the details are the last ones. */
    ghost predicate Valid() reads this {
      && total == base + |recorded| && kept == Tail(origin + recorded, limit) && |origin| <= base && limit >= 1
    }

    constructor (job: Job, detailsLimit: int)
      ensures origin == job.errors
      ensures Valid() && recorded == [] && base == StoredTotal(job) && limit == Most(1, AsCount(detailsLimit))
      ensures total == StoredTotal(job) && kept == Tail(job.errors, limit)
    {
      limit := if detailsLimit < 1 then 1 else detailsLimit;
      kept := Tail(job.errors, if detailsLimit < 1 then 1 else detailsLimit);
      total := Most(Most(AsCount(job.failedTotal), AsCount(job.failed)), |job.errors|);
      origin, base, recorded := job.errors, StoredTotal(job), [];
      new;
      assert origin + recorded == origin;
    }

    method Append(error: Error)
      requires Valid()
      modifies this`kept, this`total, this`recorded
      ensures Valid() && recorded == old(recorded) + [error]
    {
      total := total + 1;
      TrimEarly(origin + recorded, [error], limit);
      assert origin + recorded + [error] == origin + (recorded + [error]);
      kept := kept + [error];
      if |kept| > limit {
        kept := kept[|kept| - limit..];
      }
      recorded := recorded + [error];
    }

    method Extend(errors: seq<Error>)
      requires Valid()
      modifies this`kept, this`total, this`recorded
      ensures Valid() && recorded == old(recorded) + errors
    {
      for i := 0 to |errors|
        invariant Valid() && recorded == old(recorded) + errors[..i]
      {
        Append(errors[i]);
        assert errors[..i + 1] == errors[..i] + [errors[i]];
      }
      assert errors[..|errors|] == errors;
    }
  }

  // ---------------------------------------------------------------- checkpoints

  datatype Gate = Gate(pending: nat, last: real)

  /** One fetched account: whether it failed, and when it came. */
  datatype Fetch = Fetch(error: Option<Error>, now: real)

  predicate IsDue(g: Gate, now: real) {
    g.pending + 1 >= CHECKPOINT_ITEMS || now - g.last >= CHECKPOINT_SECONDS
  }

  function Marked(g: Gate, now: real): Gate {
    if IsDue(g, now) then Gate(0, now) else Gate(g.pending + 1, g.last)
  }

  function GateAfter(g: Gate, fetches: seq<Fetch>): Gate {
    if fetches == [] then g else Marked(GateAfter(g, fetches[..|fetches| - 1]), fetches[|fetches| - 1].now)
  }

  function ErrorOf(f: Fetch): seq<Error> {
    if f.error.Some? then [f.error.value] else []
  }

  function ErrorsOf(fetches: seq<Fetch>): seq<Error> {
    if fetches == [] then [] else ErrorsOf(fetches[..|fetches| - 1]) + ErrorOf(fetches[|fetches| - 1])
  }

  /** The failures no checkpoint has written after the fetches; before holds those that were unwritten at the start. */
  function Unwritten(g: Gate, before: seq<Error>, fetches: seq<Fetch>): seq<Error> {
    if fetches == [] then before
    else
      var n := |fetches| - 1;
      if IsDue(GateAfter(g, fetches[..n]), fetches[n].now) then [] else Unwritten(g, before, fetches[..n]) + ErrorOf(fetches[n])
  }

  /** Everything is written from here on: a checkpoint was due just before k, and no fetch since failed. */
  ghost predicate CleanSince(g: Gate, before: seq<Error>, fetches: seq<Fetch>, k: nat) {
    && k <= |fetches|
    && (if k == 0 then before == [] else IsDue(GateAfter(g, fetches[..k - 1]), fetches[k - 1].now))
    && forall i | k <= i < |fetches| :: fetches[i].error.None?
  }

  /** Nothing is unwritten exactly if no fetch failed since the last due checkpoint. */
  lemma {:induction false} NothingUnwrittenIff(g: Gate, before: seq<Error>, fetches: seq<Fetch>)
    ensures Unwritten(g, before, fetches) == [] <==> exists k :: CleanSince(g, before, fetches, k)
    decreases |fetches|
  {
    hide IsDue;
    if fetches == [] {
      assert before == [] ==> CleanSince(g, before, fetches, 0);
    } else {
      var n := |fetches| - 1;
      var first := fetches[..n];
      NothingUnwrittenIff(g, before, first);
      forall k: nat | k <= n ensures CleanSince(g, before, fetches, k) <==> CleanSince(g, before, first, k) && fetches[n].error.None? {
        assert k > 0 ==> fetches[..k - 1] == first[..k - 1];
      }
      if IsDue(GateAfter(g, first), fetches[n].now) {
        assert CleanSince(g, before, fetches, n + 1);
      } else if k :| CleanSince(g, before, first, k) && fetches[n].error.None? {
        assert CleanSince(g, before, fetches, k);
      }
    }
  }

  /** Lets a checkpoint through after enough items or enough time. */
  class CheckpointGate {
    var pending: nat
    var last: real

    ghost function State(): Gate reads this { Gate(pending, last) }

    constructor (now: real)
      ensures pending == 0 && last == now
    {
      pending, last := 0, now;
    }

    method Mark(now: real) returns (due: bool)
      requires pending < CHECKPOINT_ITEMS
      modifies this
      ensures pending < CHECKPOINT_ITEMS
      ensures due <==> old(pending) + 1 >= CHECKPOINT_ITEMS || now - old(last) >= CHECKPOINT_SECONDS
      ensures pending == (if due then 0 else old(pending) + 1) && last == (if due then now else old(last))
      ensures due == IsDue(old(State()), now) && State() == Marked(old(State()), now)
    {
      pending := pending + 1;
      if pending < CHECKPOINT_ITEMS && now - last < CHECKPOINT_SECONDS {
        return false;
      }
      pending, last := 0, now;
      due := true;
    }
  }

  // ---------------------------------------------------------------- the statuses of the saved items

  /** What storing the fetched accounts came to. */
  datatype SaveOutcome = StorageFailed(message: string) | Saved(statuses: Option<seq<Option<Status>>>, added: int)

  predicate Readable(statuses: seq<Option<Status>>) {
    forall i | 0 <= i < |statuses| :: statuses[i].Some?
  }

  predicate Fits(reported: Option<seq<Option<Status>>>, total: nat) {
    reported.Some? && |reported.value| == total && Readable(reported.value)
  }

  function Repeated<T>(x: T, n: nat): seq<T> {
    seq(n, _ => x)
  }

  /** One status per item: the reported ones if they fit, else as many added as the count allows and the rest skipped. */
  function ItemStatuses(statuses: Option<seq<Option<Status>>>, added: int, total: nat): (resolved: seq<Status>)
    ensures |resolved| == total
  {
    if Fits(statuses, total) then
      seq(total, i requires 0 <= i < total => statuses.value[i].value)
    else
      var n := if AsCount(added) < total then AsCount(added) else total;
      Repeated(Added, n) + Repeated(Skipped, total - n)
  }

  function CountOf(statuses: seq<Status>, status: Status): nat {
    if statuses == [] then 0
    else CountOf(statuses[..|statuses| - 1], status) + if statuses[|statuses| - 1] == status then 1 else 0
  }

  lemma {:induction false} CountConcat(a: seq<Status>, b: seq<Status>, status: Status)
    ensures CountOf(a + b, status) == CountOf(a, status) + CountOf(b, status)
  {
    if b == [] {
      assert a + b == a;
    } else {
      assert (a + b)[..|a + b| - 1] == a + b[..|b| - 1];
      CountConcat(a, b[..|b| - 1], status);
    }
  }

  lemma {:induction false} CountRepeated(x: Status, n: nat, status: Status)
    ensures CountOf(Repeated(x, n), status) == if x == status then n else 0
  {
    if n > 0 {
      assert Repeated(x, n)[..n - 1] == Repeated(x, n - 1);
      CountRepeated(x, n - 1, status);
    }
  }

  /** Without usable per-item statuses the reported number of additions is kept, and nothing is called invalid. */
  lemma FallbackKeepsTheCount(statuses: Option<seq<Option<Status>>>, added: int, total: nat)
    requires !Fits(statuses, total)
    ensures var resolved := ItemStatuses(statuses, added, total);
      && CountOf(resolved, Added) == (if added < 0 then 0 else if added > total then total else added)
      && CountOf(resolved, Added) + CountOf(resolved, Skipped) == total && CountOf(resolved, Invalid) == 0
  {
    var n := if AsCount(added) < total then AsCount(added) else total;
    forall status: Status ensures CountOf(ItemStatuses(statuses, added, total), status) ==
      (if status == Added then n else 0) + (if status == Skipped then total - n else 0)
    {
      CountConcat(Repeated(Added, n), Repeated(Skipped, total - n), status);
      CountRepeated(Added, n, status);
      CountRepeated(Skipped, total - n, status);
    }
  }

  function StorageErrors(names: seq<string>, message: string): seq<Error> {
    seq(|names|, i requires 0 <= i < |names| => Error(names[i], message))
  }

  /** One error for each item that was refused. */
  function InvalidErrors(names: seq<string>, statuses: seq<Status>): seq<Error>
    requires |names| == |statuses|
  {
    if names == [] then []
    else
      var n := |names| - 1;
      InvalidErrors(names[..n], statuses[..n]) + if statuses[n] == Invalid then [Error(names[n], INVALID_DATA)] else []
  }

  lemma {:induction false} OneErrorPerInvalid(names: seq<string>, statuses: seq<Status>)
    requires |names| == |statuses|
    ensures |InvalidErrors(names, statuses)| == CountOf(statuses, Invalid)
  {
    if names != [] {
      OneErrorPerInvalid(names[..|names| - 1], statuses[..|names| - 1]);
    }
  }

  // ---------------------------------------------------------------- the job and its store

  /** Holds the one import job of a source. Another worker may replace it by a new job; it never changes this one. */
  class JobStore {
    var job: Option<Job>

    constructor (job: Option<Job>)
      ensures this.job == job
    {
      this.job := job;
    }

    method OthersRun(id: JobId)
      modifies this
      ensures job == old(job) || job.None? || job.value.id != id
    {
      var other: Option<Job> := *;
      match other
      case None => job := None;
      case Some(replacement) =>
        if replacement.id != id {
          job := other;
        }
    }

    method SetJob(next: Job, expected: JobId) returns (saved: bool)
      modifies this
      ensures saved <==> old(job).Some? && old(job).value.id == expected
      ensures job == if saved then Some(next) else old(job)
    {
      saved := job.Some? && job.value.id == expected;
      if saved {
        job := Some(next);
      }
    }
  }

  lemma FailedOnce(job: Job, error: Error)
    ensures var kept := Tail(job.errors + [error], DETAILS_LIMIT);
      var failed := UpdatedJob(job, Updates(Some(StoredTotal(job) + 1), None, Some(kept), None));
      StoredTotal(failed) == StoredTotal(job) + 1 && failed.errors == kept && failed.completed == job.completed
  {
    KeptWithin(job.errors + [error], DETAILS_LIMIT);
  }

  class RemoteImportJob {
    const store: JobStore
    const id: JobId
    const total: nat
    const failures: FailureAccumulator
    const gate: CheckpointGate
    var completed: int
    ghost var unwritten: seq<Error>

    /** While the stored job is still this worker's, it accounts for all failures but the last ones, which no checkpoint has
        written yet. */
    ghost predicate Valid()
      reads this, store, failures, gate
    {
      && failures.Valid() && failures.limit == DETAILS_LIMIT && gate.pending < CHECKPOINT_ITEMS
      && |unwritten| <= |failures.recorded| && unwritten == failures.recorded[|failures.recorded| - |unwritten|..]
      && (Owned() ==> StoredTotal(store.job.value) + |unwritten| == failures.total)
    }

    ghost predicate Owned()
      reads this, store
    {
      store.job.Some? && store.job.value.id == id
    }

    /** Takes a job over: the totals start from what is stored. */
    constructor (store: JobStore, id: JobId, total: nat, started: Job, now: real)
      requires store.job == Some(started) && started.id == id
      ensures Valid() && this.store == store && this.id == id && fresh(failures) && fresh(gate)
      ensures failures.base == StoredTotal(started) && failures.recorded == [] && unwritten == [] && gate.State() == Gate(0, now)
      ensures completed == started.completed
    {
      unwritten := [];
      this.store, this.id, this.total := store, id, total;
      completed := started.completed;
      failures := new FailureAccumulator(started, DETAILS_LIMIT);
      gate := new CheckpointGate(now);
    }

    /** What every checkpoint writes: the exact total, and the last details. */
    ghost predicate Persisted()
      reads this, store, failures
    {
      && Owned()
      && store.job.value.failedTotal == store.job.value.failed == StoredTotal(store.job.value)
      && StoredTotal(store.job.value) == failures.base + |failures.recorded|
      && store.job.value.errors == Tail(failures.origin + failures.recorded, DETAILS_LIMIT)
    }

    /** Writes the named fields over the stored job while it is this worker's. A report of the worker's own totals leaves
        nothing unwritten, and naming no count changes none. */
    method Update(u: Updates) returns (saved: bool)
      requires Valid()
      modifies store, this`unwritten
      ensures saved ==>
        old(store.job).Some? && old(store.job).value.id == id && store.job == Some(UpdatedJob(old(store.job).value, u))
      ensures saved <==> Owned()
      ensures unwritten == if saved && Reports(u) then [] else old(unwritten)
      ensures !saved || !Counts(u) || Reports(u) ==> Valid()
      ensures saved && Reports(u) ==> Persisted()
    {
      store.OthersRun(id);
      if store.job.None? {
        return false;
      }
      var next := UpdatedJob(store.job.value, u);
      KeptWithin(failures.origin + failures.recorded, DETAILS_LIMIT);
      store.OthersRun(id);
      saved := store.SetJob(next, id);
      if saved && Reports(u) {
        unwritten := [];
      }
    }

    ghost predicate Reports(u: Updates)
      reads failures
    {
      u.failedTotal == Some(failures.total) && u.errors == Some(failures.kept) && u.failed.None?
    }

    /** Marks the job failed from its stored record: one failure more than stored. What no checkpoint had written is lost, so
        the number is exact iff there was nothing of that kind. */
    method Fail(error: Error) returns (saved: bool)
      requires Valid()
      modifies store, this`unwritten
      ensures saved <==> Owned()
      ensures saved ==> old(store.job).Some? && old(store.job).value.id == id
      ensures saved ==>
        && StoredTotal(store.job.value) == StoredTotal(old(store.job).value) + 1
        && store.job.value.errors == Tail(old(store.job).value.errors + [error], DETAILS_LIMIT)
        && store.job.value.completed == old(store.job).value.completed
      ensures saved ==> StoredTotal(store.job.value) + old(|unwritten|) == failures.base + |failures.recorded| + 1
    {
      hide StoredTotal, UpdatedJob, NextFailedTotal;
      store.OthersRun(id);
      if store.job.None? || store.job.value.id != id {
        return false;
      }
      var current := store.job.value;
      var counted := new FailureAccumulator(current, DETAILS_LIMIT);
      counted.Append(error);
      assert counted.recorded == [error];
      assert counted.total == StoredTotal(current) + 1 && counted.kept == Tail(current.errors + [error], DETAILS_LIMIT);
      FailedOnce(current, error);
      saved := Update(Updates(Some(counted.total), None, Some(counted.kept), None));
    }

    /** Notes one fetched account, and writes a checkpoint when one is due. */
    method RecordFetch(error: Option<Error>, now: real) returns (owned: bool)
      requires Valid()
      modifies this`completed, this`unwritten, store, failures`kept, failures`total, failures`recorded, gate
      ensures Valid() && completed == old(completed) + 1 && gate.State() == Marked(old(gate.State()), now)
      ensures failures.recorded == old(failures.recorded) + ErrorOf(Fetch(error, now))
      ensures var due := IsDue(old(gate.State()), now);
        if due then (owned <==> Owned()) && (owned ==> Persisted() && unwritten == [] && store.job.value.completed == completed)
        else owned && store.job == old(store.job) && unwritten == old(unwritten) + ErrorOf(Fetch(error, now))
    {
      completed := completed + 1;
      if error.Some? {
        failures.Append(error.value);
        unwritten := unwritten + [error.value];
      }
      var due := gate.Mark(now);
      if !due {
        return true;
      }
      owned := Update(Updates(Some(failures.total), None, Some(failures.kept), Some(completed)));
    }

    /** The worker's loop over what it fetched, until the job is no longer its own: the stored job lacks exactly the failures
        since the last due checkpoint. */
    method RecordFetches(fetches: seq<Fetch>) returns (owned: bool)
      requires Valid()
      modifies this`completed, this`unwritten, store, failures`kept, failures`total, failures`recorded, gate
      ensures Valid()
      ensures !owned ==> !Owned()
      ensures owned ==> unwritten == Unwritten(old(gate.State()), old(unwritten), fetches)
      ensures owned ==> failures.recorded == old(failures.recorded) + ErrorsOf(fetches) && completed == old(completed) + |fetches|
    {
      hide IsDue;
      ghost var g0, before := gate.State(), unwritten;
      for i := 0 to |fetches|
        invariant Valid() && gate.State() == GateAfter(g0, fetches[..i])
        invariant unwritten == Unwritten(g0, before, fetches[..i])
        invariant failures.recorded == old(failures.recorded) + ErrorsOf(fetches[..i]) && completed == old(completed) + i
      {
        assert fetches[..i + 1][..i] == fetches[..i];
        owned := RecordFetch(fetches[i].error, fetches[i].now);
        if !owned {
          return;
        }
      }
      assert fetches[..|fetches|] == fetches;
      owned := true;
    }

    // Writes the exact total and the kept details.
    method Checkpoint(done: Option<int>) returns (saved: bool)
      requires Valid()
      modifies store, this`unwritten
      ensures Valid() && (saved <==> Owned()) && (saved ==> Persisted() && unwritten == [])
    {
      saved := Update(Updates(Some(failures.total), None, Some(failures.kept), done));
    }

    // Counts failures; the next checkpoint writes them.
    method NoteFailures(errors: seq<Error>)
      requires Valid()
      modifies this`unwritten, failures`kept, failures`total, failures`recorded
      ensures Valid() && failures.recorded == old(failures.recorded) + errors && unwritten == old(unwritten) + errors
    {
      failures.Extend(errors);
      unwritten := unwritten + errors;
    }

    /** Stores the fetched accounts and synchronises them; every failure on the way is counted once. */
    method Finish(names: seq<string>, outcome: SaveOutcome, syncErrors: seq<Error>) returns (owned: bool)
      requires Valid()
      modifies store, this`unwritten, failures`kept, failures`total, failures`recorded
      ensures Valid() && (owned <==> Owned()) && (owned ==> Persisted())
      ensures owned ==> failures.recorded == old(failures.recorded) + FinishFailures(names, outcome, syncErrors)
    {
      hide Valid, Persisted, StoredTotal, UpdatedJob, Tail, ItemStatuses, InvalidErrors;
      if names == [] {
        owned := Checkpoint(Some(completed));
        return;
      }
      var saved := Checkpoint(Some(completed));
      if !saved {
        return false;
      }
      match outcome
      case StorageFailed(message) =>
        NoteFailures(StorageErrors(names, message));
        owned := Checkpoint(Some(total));
      case Saved(reported, added) =>
        owned := Synchronise(InvalidErrors(names, ItemStatuses(reported, added, |names|)), syncErrors);
    }

    // After storing: the refused items are written, then the accounts are synchronised.
    method Synchronise(invalid: seq<Error>, syncErrors: seq<Error>) returns (owned: bool)
      requires Valid()
      modifies store, this`unwritten, failures`kept, failures`total, failures`recorded
      ensures Valid() && (owned <==> Owned()) && (owned ==> Persisted())
      ensures owned ==> failures.recorded == old(failures.recorded) + invalid + syncErrors
    {
      hide Valid, Persisted, StoredTotal, UpdatedJob, Tail;
      NoteFailures(invalid);
      var saved := Checkpoint(None);
      if !saved {
        return false;
      }
      saved := Update(Updates(None, None, None, None));
      if !saved {
        return false;
      }
      NoteFailures(syncErrors);
      owned := Checkpoint(Some(total));
    }
  }

  /** The worker takes the job over, fetches, and is then marked failed. The final number is the exact one iff no fetch failed
      since the last due checkpoint. */
  method FetchThenFail(store: JobStore, id: JobId, total: nat, started: Job, now: real, fetches: seq<Fetch>, error: Error)
    returns (saved: bool)
    requires store.job == Some(started) && started.id == id
    modifies store
    ensures saved <==> store.job.Some? && store.job.value.id == id
    ensures saved ==> (StoredTotal(store.job.value) == StoredTotal(started) + |ErrorsOf(fetches)| + 1 <==>
                       exists k :: CleanSince(Gate(0, now), [], fetches, k))
  {
    hide CleanSince, StoredTotal;
    var job := new RemoteImportJob(store, id, total, started, now);
    saved := job.RecordFetches(fetches);
    if saved {
      NothingUnwrittenIff(Gate(0, now), [], fetches);
      saved := job.Fail(error);
    }
  }

  /** The input: one fetch fails right away, before any checkpoint is due. Then it stays unwritten. */
  lemma UnwrittenFetchIsLost(now: real, error: Error)
    ensures Unwritten(Gate(0, now), [], [Fetch(Some(error), now)]) == [error]
    ensures !exists k :: CleanSince(Gate(0, now), [], [Fetch(Some(error), now)], k)
  {
    var fetches := [Fetch(Some(error), now)];
    assert fetches[..0] == [];
    NothingUnwrittenIff(Gate(0, now), [], fetches);
  }

  /** The failures finishing records: all items when storing fails, else the refused ones and the failed synchronisations. */
  function FinishFailures(names: seq<string>, outcome: SaveOutcome, syncErrors: seq<Error>): seq<Error> {
    if names == [] then []
    else
      match outcome
      case StorageFailed(message) => StorageErrors(names, message)
      case Saved(reported, added) => InvalidErrors(names, ItemStatuses(reported, added, |names|)) + syncErrors
  }

  // The refused ones among the reported statuses.
  function Refused(reported: seq<Option<Status>>): nat {
    if reported == [] then 0
    else Refused(reported[..|reported| - 1]) + if reported[|reported| - 1] == Some(Invalid) then 1 else 0
  }

  /** If storing fails, every fetched account fails, each under its name. If it works and every account has a status, those
      reported as invalid fail, each under its name and in order, and then those that could not be synchronised; without
      usable statuses only the latter. */
  lemma WhoFails(names: seq<string>, outcome: SaveOutcome, syncErrors: seq<Error>)
    requires names != []
    ensures var failed := FinishFailures(names, outcome, syncErrors);
      match outcome
      case StorageFailed(message) => |failed| == |names| && forall i | 0 <= i < |names| :: failed[i] == Error(names[i], message)
      case Saved(reported, _) =>
        if Fits(reported, |names|) then
          && |failed| == Refused(reported.value) + |syncErrors| && failed[Refused(reported.value)..] == syncErrors
          && forall i | 0 <= i < |names| && reported.value[i] == Some(Invalid) ::
               Refused(reported.value[..i]) < |failed| && failed[Refused(reported.value[..i])] == Error(names[i], INVALID_DATA)
        else failed == syncErrors
  {
    if outcome.Saved? {
      var statuses := ItemStatuses(outcome.statuses, outcome.added, |names|);
      OneErrorPerInvalid(names, statuses);
      if Fits(outcome.statuses, |names|) {
        RefusedCount(outcome.statuses.value, statuses);
        forall i | 0 <= i < |names| && outcome.statuses.value[i] == Some(Invalid)
          ensures var k := Refused(outcome.statuses.value[..i]);
            k < |InvalidErrors(names, statuses)| && InvalidErrors(names, statuses)[k] == Error(names[i], INVALID_DATA)
        {
          RefusedCount(outcome.statuses.value[..i], statuses[..i]);
          RefusedInOrder(names, statuses, i);
        }
      } else {
        FallbackKeepsTheCount(outcome.statuses, outcome.added, |names|);
      }
    }
  }

  lemma {:induction false} RefusedCount(reported: seq<Option<Status>>, statuses: seq<Status>)
    requires |reported| == |statuses| && forall i | 0 <= i < |reported| :: reported[i] == Some(statuses[i])
    ensures Refused(reported) == CountOf(statuses, Invalid)
  {
    if reported != [] {
      RefusedCount(reported[..|reported| - 1], statuses[..|statuses| - 1]);
    }
  }

  lemma {:induction false} RefusedInOrder(names: seq<string>, statuses: seq<Status>, i: nat)
    requires |names| == |statuses| && i < |names| && statuses[i] == Invalid
    ensures CountOf(statuses[..i], Invalid) < |InvalidErrors(names, statuses)|
    ensures InvalidErrors(names, statuses)[CountOf(statuses[..i], Invalid)] == Error(names[i], INVALID_DATA)
  {
    var n := |names| - 1;
    OneErrorPerInvalid(names[..n], statuses[..n]);
    if i < n {
      assert statuses[..n][..i] == statuses[..i];
      RefusedInOrder(names[..n], statuses[..n], i);
    }
  }

  lemma KeptWithin(all: seq<Error>, limit: nat)
    ensures |Tail(all, limit)| <= |all|
  {
  }
}
