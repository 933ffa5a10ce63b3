/** Closing of pending bonus entries and the retry queue for failed credits.

    The wallet creditor is outside the model: Answer says, for each call made to
    it, whether it credited (error is None) or raised with no effect, and what
    the clock read at that moment.  Its calls are kept in a log, so that credits
    can be counted.  The laws are in BonusQueueLaws. */
module BonusQueue {
  import opened Wrappers

  datatype EntryStatus = Pending | Retry | Confirmed | Failed

  /** retryCount is the "retry_count" of the metadata, absent on most new entries. */
  datatype Entry = Entry(id: string, userId: string, amount: int, createdAt: int, status: EntryStatus,
                         retryCount: Option<int>, lastError: Option<string>, holdUntil: Option<int>)

  datatype QueueStatus = Waiting | Processing | Completed | Abandoned

  datatype QueueRecord = QueueRecord(id: string, bonusId: string, retryAfter: int, retryCount: int,
                                     status: QueueStatus, reason: Option<string>)

  datatype Call = Call(bonusId: string, userId: string, amount: int, credited: bool)

  datatype Answer = Answer(error: Option<string>, at: int)

  type Creditor = nat -> Answer

  datatype State = State(entries: map<string, Entry>, queue: map<string, QueueRecord>, calls: seq<Call>)

  const EMPTY := State(map[], map[], [])

  datatype Config = Config(closingDelay: int, closingMax: int, baseDelay: int, backoffFactor: int, retryMax: int)

  function QueueId(bonusId: string): string { "retry-" + bonusId }

  function Power(b: int, n: nat): int {
    if n == 0 then 1 else b * Power(b, n - 1)
  }

  /** Minutes until the next attempt after the retryCount-th failure. */
  function Delay(c: Config, retryCount: int): int {
    c.baseDelay * Power(Max(c.backoffFactor, 1), Max(retryCount - 1, 0))
  }

  // ------------------------------------------------------- repository updates

  function SetQueueStatus(s: State, queueId: string, status: QueueStatus): State {
    if queueId in s.queue then s.(queue := s.queue[queueId := s.queue[queueId].(status := status)]) else s
  }

  function MarkConfirmed(s: State, bonusId: string): State {
    if bonusId !in s.entries then s
    else
      SetQueueStatus(s.(entries := s.entries[bonusId := s.entries[bonusId].(status := Confirmed)]), QueueId(bonusId), Completed)
  }

  function ScheduleRetry(s: State, bonusId: string, retryAfter: int, retryCount: int, error: string): State {
    if bonusId !in s.entries then s
    else
      var e := s.entries[bonusId].(status := Retry, retryCount := Some(retryCount), lastError := Some(error), holdUntil := Some(retryAfter));
      var known := if QueueId(bonusId) in s.queue then s.queue[QueueId(bonusId)].retryCount else 0;
      s.(entries := s.entries[bonusId := e],
         queue := s.queue[QueueId(bonusId) :=
           QueueRecord(QueueId(bonusId), bonusId, retryAfter, if retryCount != 0 then retryCount else known, Waiting, Some(error))])
  }

  function MarkFailed(s: State, bonusId: string, retryCount: int, error: string): State {
    if bonusId !in s.entries then s
    else
      var s1 := s.(entries := s.entries[bonusId := s.entries[bonusId].(status := Failed, retryCount := Some(retryCount), lastError := Some(error))]);
      MarkRetryFailed(s1, QueueId(bonusId), error)
  }

  function MarkRetryFailed(s: State, queueId: string, error: string): State {
    if queueId in s.queue
    then s.(queue := s.queue[queueId := s.queue[queueId].(status := Abandoned, reason := Some(error))]) else s
  }

  function Called(s: State, e: Entry, credited: bool): State {
    s.(calls := s.calls + [Call(e.id, e.userId, e.amount, credited)])
  }

  // ------------------------------------------------------------- one attempt

  /** Closing entry e, as it was listed. */
  function CloseOne(c: Config, s: State, e: Entry, answer: Answer): State {
    match answer.error
    case None => MarkConfirmed(Called(s, e, true), e.id)
    case Some(error) =>
      var s1, count := Called(s, e, false), e.retryCount.GetOr(0) + 1;
      if count >= c.closingMax then MarkFailed(s1, e.id, count, error)
      else ScheduleRetry(s1, e.id, answer.at + c.closingDelay, count, error)
  }

  datatype Tally = Tally(succeeded: nat, rescheduled: nat, failed: nat)

  datatype Outcome = Succeeded | Rescheduled | GaveUp

  function Count(t: Tally, o: Outcome): Tally {
    match o
    case Succeeded => t.(succeeded := t.succeeded + 1)
    case Rescheduled => t.(rescheduled := t.rescheduled + 1)
    case GaveUp => t.(failed := t.failed + 1)
  }

  /** Retrying candidate q, as it was listed. */
  function RetryOne(c: Config, s: State, q: QueueRecord, answer: Answer): (State, Outcome) {
    var s1 := SetQueueStatus(s, q.id, Processing);
    if q.bonusId !in s1.entries then (MarkRetryFailed(s1, q.id, "bonus_entry_missing"), GaveUp)
    else
      var e := s1.entries[q.bonusId];
      match answer.error
      case None => (SetQueueStatus(MarkConfirmed(Called(s1, e, true), e.id), q.id, Completed), Succeeded)
      case Some(error) =>
        var s2, next := Called(s1, e, false), Max(q.retryCount, e.retryCount.GetOr(0)) + 1;
        if next >= c.retryMax then (MarkRetryFailed(MarkFailed(s2, e.id, next, error), q.id, error), GaveUp)
        else (ScheduleRetry(s2, e.id, answer.at + Delay(c, next), next, error), Rescheduled)
  }

  /** The first n attempts of a closing run or of a retry run. */
  function CloseBatch(c: Config, s: State, batch: seq<Entry>, creditor: Creditor, n: nat): State
    requires n <= |batch|
  {
    if n == 0 then s else CloseOne(c, CloseBatch(c, s, batch, creditor, n - 1), batch[n - 1], creditor(n - 1))
  }

  function RetryBatch(c: Config, s: State, batch: seq<QueueRecord>, creditor: Creditor, n: nat): (State, Tally)
    requires n <= |batch|
  {
    if n == 0 then (s, Tally(0, 0, 0))
    else
      var (s1, tally) := RetryBatch(c, s, batch, creditor, n - 1);
      var (s2, outcome) := RetryOne(c, s1, batch[n - 1], creditor(n - 1));
      (s2, Count(tally, outcome))
  }

  // --------------------------------------------------- choosing the candidates

  /** The keys chosen are the earliest of the candidates, up to the limit, in order of time. */
  ghost predicate Earliest<K>(chosen: seq<K>, candidates: set<K>, time: map<K, int>, limit: nat) {
    && candidates <= time.Keys
    && (forall i :: 0 <= i < |chosen| ==> chosen[i] in candidates)
    && (forall i, j :: 0 <= i < j < |chosen| ==> chosen[i] != chosen[j] && time[chosen[i]] <= time[chosen[j]])
    && |chosen| <= limit
    && (|chosen| < limit ==> forall k :: k in candidates ==> k in chosen)
    && (forall i, k :: 0 <= i < |chosen| && k in candidates && k !in chosen ==> time[chosen[i]] <= time[k])
  }

  ghost predicate Sorted<K>(s: seq<K>, time: map<K, int>)
    requires forall i :: 0 <= i < |s| ==> s[i] in time
  {
    forall i, j :: 0 <= i < j < |s| ==> s[i] != s[j] && time[s[i]] <= time[s[j]]
  }

  function InsertAt<K>(s: seq<K>, i: nat, k: K): (r: seq<K>)
    requires i <= |s|
    ensures |r| == |s| + 1 && r[i] == k
    ensures forall j :: 0 <= j < i ==> r[j] == s[j]
    ensures forall j :: i <= j < |s| ==> r[j + 1] == s[j]
  {
    s[..i] + [k] + s[i..]
  }

  lemma InsertAtMembers<K>(s: seq<K>, i: nat, k: K, x: K)
    requires i <= |s|
    ensures x in InsertAt(s, i, k) <==> x in s || x == k
  {
    var r := InsertAt(s, i, k);
    if x in s {
      var j :| 0 <= j < |s| && s[j] == x;
      assert r[if j < i then j else j + 1] == x;
    }
    if x in r {
      var j :| 0 <= j < |r| && r[j] == x;
      assert j < i ==> r[j] == s[j];
      assert j > i ==> r[(j - 1) + 1] == s[j - 1];
    }
  }

  lemma InsertAtIndex<K>(s: seq<K>, i: nat, k: K, j: nat)
    requires i <= |s| && j < |s| + 1
    ensures InsertAt(s, i, k)[j] == if j < i then s[j] else if j == i then k else s[j - 1]
  {
    assert j > i ==> InsertAt(s, i, k)[(j - 1) + 1] == s[j - 1];
  }

  lemma InsertAtSorted<K>(s: seq<K>, i: nat, k: K, time: map<K, int>)
    requires i <= |s| && k in time && k !in s && (forall j :: 0 <= j < |s| ==> s[j] in time) && Sorted(s, time)
    requires i > 0 ==> time[s[i - 1]] <= time[k]
    requires i < |s| ==> time[k] <= time[s[i]]
    ensures forall j :: 0 <= j < |s| + 1 ==> InsertAt(s, i, k)[j] in time
    ensures Sorted(InsertAt(s, i, k), time)
  {
    var r := InsertAt(s, i, k);
    forall j | 0 <= j < |r| ensures r[j] in time {
      InsertAtIndex(s, i, k, j);
    }
    forall j, l | 0 <= j < l < |r| ensures r[j] != r[l] && time[r[j]] <= time[r[l]] {
      InsertAtIndex(s, i, k, j);
      InsertAtIndex(s, i, k, l);
    }
  }

  /** Inserts k behind the keys that are not later. */
  method Insert<K(==)>(sorted: seq<K>, k: K, time: map<K, int>) returns (r: seq<K>)
    requires k in time && k !in sorted && forall i :: 0 <= i < |sorted| ==> sorted[i] in time
    requires Sorted(sorted, time)
    ensures forall x :: x in r <==> x in sorted || x == k
    ensures forall i :: 0 <= i < |r| ==> r[i] in time
    ensures Sorted(r, time)
  {
    var i := |sorted|;
    while i > 0 && time[sorted[i - 1]] > time[k]
      invariant 0 <= i <= |sorted|
      invariant i < |sorted| ==> time[k] <= time[sorted[i]]
    {
      i := i - 1;
    }
    r := InsertAt(sorted, i, k);
    InsertAtSorted(sorted, i, k, time);
    forall x {
      InsertAtMembers(sorted, i, k, x);
    }
  }

  /** Sorts the candidates by time and keeps the first limit of them. */
  method ListEarliest<K(==)>(candidates: set<K>, time: map<K, int>, limit: nat) returns (chosen: seq<K>)
    requires candidates <= time.Keys
    ensures Earliest(chosen, candidates, time, limit)
  {
    var sorted: seq<K> := [];
    var rest := candidates;
    while rest != {}
      invariant rest <= candidates
      invariant forall k :: k in sorted <==> k in candidates && k !in rest
      invariant forall i :: 0 <= i < |sorted| ==> sorted[i] in time
      invariant Sorted(sorted, time)
      decreases rest
    {
      var k :| k in rest;
      sorted := Insert(sorted, k, time);
      rest := rest - {k};
    }
    chosen := if limit < |sorted| then sorted[..limit] else sorted;
    SortedPrefix(sorted, chosen, candidates, time, limit);
  }

  /** A prefix of the sorted candidates holds the earliest of them. */
  lemma SortedPrefix<K>(sorted: seq<K>, chosen: seq<K>, candidates: set<K>, time: map<K, int>, limit: nat)
    requires candidates <= time.Keys
    requires forall i :: 0 <= i < |sorted| ==> sorted[i] in candidates
    requires forall k :: k in candidates ==> k in sorted
    requires Sorted(sorted, time)
    requires chosen == if limit < |sorted| then sorted[..limit] else sorted
    ensures Earliest(chosen, candidates, time, limit)
  {
    forall i, k | 0 <= i < |chosen| && k in candidates && k !in chosen ensures time[chosen[i]] <= time[k] {
      var j :| 0 <= j < |sorted| && sorted[j] == k;
      if j < |chosen| {
        assert false;
      }
    }
  }

  const CLOSING_LIMIT: nat := 500

  function PendingEntries(s: State): set<string> {
    set b | b in s.entries && s.entries[b].status == Pending
  }

  function DueRecords(s: State, now: int): set<string> {
    set q | q in s.queue && s.queue[q].status == Waiting && s.queue[q].retryAfter <= now
  }

  function CreationTimes(s: State): map<string, int> { map b | b in s.entries :: s.entries[b].createdAt }

  function DueTimes(s: State): map<string, int> { map q | q in s.queue :: s.queue[q].retryAfter }

  ghost predicate ClosingIds(s: State, batch: seq<Entry>, ids: seq<string>) {
    && Earliest(ids, PendingEntries(s), CreationTimes(s), CLOSING_LIMIT)
    && |ids| == |batch| && forall i :: 0 <= i < |ids| ==> batch[i] == s.entries[ids[i]]
  }

  ghost predicate ClosingBatch(s: State, batch: seq<Entry>) {
    exists ids :: ClosingIds(s, batch, ids)
  }

  ghost predicate DueIds(s: State, now: int, limit: nat, batch: seq<QueueRecord>, ids: seq<string>) {
    && Earliest(ids, DueRecords(s, now), DueTimes(s), limit)
    && |ids| == |batch| && forall i :: 0 <= i < |ids| ==> batch[i] == s.queue[ids[i]]
  }

  ghost predicate DueBatch(s: State, now: int, limit: nat, batch: seq<QueueRecord>) {
    exists ids :: DueIds(s, now, limit, batch, ids)
  }

  // ------------------------------------------------------------------ services

  /** The entries, the retry queue and the log of calls to the creditor, changed in place. */
  class BonusRepository {
    var entries: map<string, Entry>
    var queue: map<string, QueueRecord>
    var calls: seq<Call>

    constructor ()
      ensures View() == EMPTY
    {
      entries, queue, calls := map[], map[], [];
    }

    ghost function View(): State
      reads this
    {
      State(entries, queue, calls)
    }

    /** Fails, as the primary key does, on an id already in use. */
    method RecordBonus(e: Entry) returns (ok: bool)
      modifies this
      ensures ok == (e.id !in old(entries))
      ensures View() == if ok then old(View()).(entries := old(entries)[e.id := e]) else old(View())
    {
      ok := e.id !in entries;
      if ok {
        entries := entries[e.id := e];
      }
    }

    method Confirm(bonusId: string)
      modifies this
      ensures View() == MarkConfirmed(old(View()), bonusId)
    {
      if bonusId in entries {
        entries := entries[bonusId := entries[bonusId].(status := Confirmed)];
        SetStatus(QueueId(bonusId), Completed);
      }
    }

    method SetStatus(queueId: string, status: QueueStatus)
      modifies this
      ensures View() == SetQueueStatus(old(View()), queueId, status)
    {
      if queueId in queue {
        queue := queue[queueId := queue[queueId].(status := status)];
      }
    }

    method Schedule(bonusId: string, retryAfter: int, retryCount: int, error: string)
      modifies this
      ensures View() == ScheduleRetry(old(View()), bonusId, retryAfter, retryCount, error)
    {
      if bonusId !in entries {
        return;
      }
      entries := entries[bonusId :=
        entries[bonusId].(status := Retry, retryCount := Some(retryCount), lastError := Some(error), holdUntil := Some(retryAfter))];
      var id := QueueId(bonusId);
      var count := retryCount;
      if count == 0 && id in queue {
        count := queue[id].retryCount;
      }
      queue := queue[id := QueueRecord(id, bonusId, retryAfter, count, Waiting, Some(error))];
    }

    method Fail(bonusId: string, retryCount: int, error: string)
      modifies this
      ensures View() == MarkFailed(old(View()), bonusId, retryCount, error)
    {
      if bonusId in entries {
        entries := entries[bonusId :=
          entries[bonusId].(status := Failed, retryCount := Some(retryCount), lastError := Some(error))];
        FailQueued(QueueId(bonusId), error);
      }
    }

    method FailQueued(queueId: string, error: string)
      modifies this
      ensures View() == MarkRetryFailed(old(View()), queueId, error)
    {
      if queueId in queue {
        queue := queue[queueId := queue[queueId].(status := Abandoned, reason := Some(error))];
      }
    }

    /** One call of the wallet creditor for entry e. */
    method CallCreditor(e: Entry, answer: Answer)
      modifies this
      ensures View() == Called(old(View()), e, answer.error.None?)
    {
      calls := calls + [Call(e.id, e.userId, e.amount, answer.error.None?)];
    }

    method ListPending() returns (batch: seq<Entry>)
      ensures ClosingBatch(View(), batch)
    {
      var s := State(entries, queue, calls);
      var ids := ListEarliest(PendingEntries(s), CreationTimes(s), CLOSING_LIMIT);
      batch := seq(|ids|, i requires 0 <= i < |ids| && ids[i] in s.entries => s.entries[ids[i]]);
      assert ClosingIds(s, batch, ids);
    }

    method ListRetryCandidates(now: int, limit: nat) returns (batch: seq<QueueRecord>)
      ensures DueBatch(View(), now, limit, batch)
    {
      var s := State(entries, queue, calls);
      var ids := ListEarliest(DueRecords(s, now), DueTimes(s), limit);
      batch := seq(|ids|, i requires 0 <= i < |ids| && ids[i] in s.queue => s.queue[ids[i]]);
      assert DueIds(s, now, limit, batch, ids);
    }
  }

  /** How many of the first n calls credit. */
  function Credits(creditor: Creditor, n: nat): nat {
    if n == 0 then 0 else Credits(creditor, n - 1) + if creditor(n - 1).error.None? then 1 else 0
  }

  /** Every failed attempt counts as a retry here, also one that ends the entry: the failed
      counter keeps its initial zero. */
  datatype Job = Job(total: nat, confirmed: nat, retry: nat, failed: nat)

  class BonusClosingService {
    const repository: BonusRepository
    const config: Config

    constructor (repository: BonusRepository, config: Config)
      ensures this.repository == repository && this.config == config
    {
      this.repository, this.config := repository, config;
    }

    /** batch is what the repository listed. */
    method RunClosing(creditor: Creditor) returns (job: Job, batch: seq<Entry>)
      modifies repository
      ensures ClosingBatch(old(repository.View()), batch)
      ensures repository.View() == CloseBatch(config, old(repository.View()), batch, creditor, |batch|)
      ensures job.total == |batch| == job.confirmed + job.retry && job.confirmed == Credits(creditor, |batch|) && job.failed == 0
    {
      batch := repository.ListPending();
      job := CloseAll(batch, creditor);
    }

    method CloseAll(batch: seq<Entry>, creditor: Creditor) returns (job: Job)
      modifies repository
      ensures repository.View() == CloseBatch(config, old(repository.View()), batch, creditor, |batch|)
      ensures job.total == |batch| == job.confirmed + job.retry && job.confirmed == Credits(creditor, |batch|) && job.failed == 0
    {
      var confirmed, retry := 0, 0;
      for i := 0 to |batch|
        invariant repository.View() == CloseBatch(config, old(repository.View()), batch, creditor, i)
        invariant confirmed + retry == i && confirmed == Credits(creditor, i)
      {
        var credited := Attempt(batch[i], creditor(i));
        if credited {
          confirmed := confirmed + 1;
        } else {
          retry := retry + 1;
        }
      }
      job := Job(|batch|, confirmed, retry, 0);
    }

    method Attempt(e: Entry, answer: Answer) returns (credited: bool)
      modifies repository
      ensures repository.View() == CloseOne(config, old(repository.View()), e, answer)
      ensures credited == answer.error.None?
    {
      repository.CallCreditor(e, answer);
      match answer.error
      case None =>
        repository.Confirm(e.id);
        credited := true;
      case Some(error) =>
        var count := e.retryCount.GetOr(0) + 1;
        if count >= config.closingMax {
          repository.Fail(e.id, count, error);
        } else {
          repository.Schedule(e.id, answer.at + config.closingDelay, count, error);
        }
        credited := false;
    }
  }

  class BonusRetryService {
    const repository: BonusRepository
    const config: Config

    constructor (repository: BonusRepository, config: Config)
      ensures this.repository == repository && this.config == config
    {
      this.repository, this.config := repository, config;
    }

    /** batch is what the repository listed; processed is its length. */
    method Process(now: int, limit: nat, creditor: Creditor) returns (processed: nat, tally: Tally, batch: seq<QueueRecord>)
      modifies repository
      ensures DueBatch(old(repository.View()), now, limit, batch)
      ensures (repository.View(), tally) == RetryBatch(config, old(repository.View()), batch, creditor, |batch|)
      ensures processed == |batch| == tally.succeeded + tally.rescheduled + tally.failed
    {
      batch := repository.ListRetryCandidates(now, limit);
      processed := |batch|;
      tally := RetryAll(batch, creditor);
    }

    method RetryAll(batch: seq<QueueRecord>, creditor: Creditor) returns (tally: Tally)
      modifies repository
      ensures (repository.View(), tally) == RetryBatch(config, old(repository.View()), batch, creditor, |batch|)
      ensures |batch| == tally.succeeded + tally.rescheduled + tally.failed
    {
      tally := Tally(0, 0, 0);
      for i := 0 to |batch|
        invariant (repository.View(), tally) == RetryBatch(config, old(repository.View()), batch, creditor, i)
        invariant tally.succeeded + tally.rescheduled + tally.failed == i
      {
        var outcome := Attempt(batch[i], creditor(i));
        tally := Count(tally, outcome);
      }
    }

    method Attempt(q: QueueRecord, answer: Answer) returns (outcome: Outcome)
      modifies repository
      ensures (repository.View(), outcome) == RetryOne(config, old(repository.View()), q, answer)
    {
      repository.SetStatus(q.id, Processing);
      if q.bonusId !in repository.entries {
        repository.FailQueued(q.id, "bonus_entry_missing");
        return GaveUp;
      }
      var e := repository.entries[q.bonusId];
      repository.CallCreditor(e, answer);
      match answer.error
      case None =>
        repository.Confirm(e.id);
        repository.SetStatus(q.id, Completed);
        outcome := Succeeded;
      case Some(error) =>
        var next := Max(q.retryCount, e.retryCount.GetOr(0)) + 1;
        if next >= config.retryMax {
          repository.Fail(e.id, next, error);
          repository.FailQueued(q.id, error);
          return GaveUp;
        }
        repository.Schedule(e.id, answer.at + Delay(config, next), next, error);
        outcome := Rescheduled;
    }
  }
}
