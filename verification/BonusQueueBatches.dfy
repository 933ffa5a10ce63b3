/** What a closing run and a retry run do, on the fields of the store: which entries and
    records they take up, whom they ask the creditor to credit, and what becomes of each
    entry and its queue record. */
module BonusQueueBatches {
  import opened Wrappers
  import opened BonusQueue
  import opened BonusQueueLaws

  // ------------------------------------------------------- what is taken up

  /** The batch lists pending entries, earliest first, up to 500, and leaves out none that was
      created before one it lists, nor any at all unless it is full. */
  ghost predicate TakesPending(s: State, batch: seq<Entry>) {
    && |batch| <= 500
    && (forall i :: 0 <= i < |batch| ==> batch[i].id in s.entries && s.entries[batch[i].id] == batch[i] && batch[i].status == Pending)
    && (forall i, j :: 0 <= i < j < |batch| ==> batch[i].id != batch[j].id && batch[i].createdAt <= batch[j].createdAt)
    && (forall b :: b in s.entries && s.entries[b].status == Pending && s.entries[b] !in batch ==>
          |batch| == 500 && forall i :: 0 <= i < |batch| ==> batch[i].createdAt <= s.entries[b].createdAt)
  }

  /** The batch lists waiting records that are due, earliest first, up to the limit, and leaves
      out none due before one it lists, nor any at all unless it is full. */
  ghost predicate TakesDue(s: State, now: int, limit: nat, batch: seq<QueueRecord>) {
    && |batch| <= limit
    && (forall i :: 0 <= i < |batch| ==>
          && batch[i].id in s.queue && s.queue[batch[i].id] == batch[i]
          && batch[i].status == Waiting && batch[i].retryAfter <= now)
    && (forall i, j :: 0 <= i < j < |batch| ==> batch[i].id != batch[j].id && batch[i].retryAfter <= batch[j].retryAfter)
    && (forall q :: q in s.queue && s.queue[q].status == Waiting && s.queue[q].retryAfter <= now && s.queue[q] !in batch ==>
          |batch| == limit && forall i :: 0 <= i < |batch| ==> batch[i].retryAfter <= s.queue[q].retryAfter)
  }

  /** Every stored entry and record is found under its own id. */
  ghost predicate Keyed(s: State) {
    && (forall b :: b in s.entries ==> s.entries[b].id == b)
    && (forall q :: q in s.queue ==> s.queue[q].id == q)
  }

  lemma InvKeyed(s: State)
    requires Inv(s)
    ensures Keyed(s)
  {
    forall b | b in s.entries ensures s.entries[b].id == b {
      assert InStep(s, b);
    }
    forall q | q in s.queue ensures s.queue[q].id == q {
      assert Queued(s, q);
    }
  }

  /** Membership in a batch and among its ids is the same. */
  lemma Listed<T(!new)>(store: map<string, T>, ids: seq<string>, batch: seq<T>, k: string)
    requires |ids| == |batch| && forall i :: 0 <= i < |ids| ==> ids[i] in store && batch[i] == store[ids[i]]
    requires forall i, j :: 0 <= i < j < |ids| ==> ids[i] != ids[j]
    requires forall a, b :: a in store && b in store && store[a] == store[b] ==> a == b
    requires k in store
    ensures k in ids <==> store[k] in batch
  {
    if k in ids {
      var i :| 0 <= i < |ids| && ids[i] == k;
      assert batch[i] == store[k];
    }
    if store[k] in batch {
      var i :| 0 <= i < |batch| && batch[i] == store[k];
      assert ids[i] == k;
    }
  }

  /** The earliest of the keys, spelled out for their values. */
  ghost predicate Spelled<T(!new)>(store: map<string, T>, ids: seq<string>, batch: seq<T>, time: map<string, int>, candidates: set<string>, limit: nat) {
    && |ids| == |batch| <= limit
    && (forall i :: 0 <= i < |ids| ==> ids[i] in candidates && ids[i] in store && batch[i] == store[ids[i]] && ids[i] in time)
    && (forall i, j :: 0 <= i < j < |ids| ==> ids[i] != ids[j] && time[ids[i]] <= time[ids[j]])
    && (forall k :: k in candidates && k in store && k in time && store[k] !in batch ==>
          |batch| == limit && forall i :: 0 <= i < |ids| ==> time[ids[i]] <= time[k])
  }

  lemma EarliestSpelled<T(!new)>(store: map<string, T>, ids: seq<string>, batch: seq<T>, time: map<string, int>, candidates: set<string>, limit: nat)
    requires time.Keys == store.Keys && candidates <= store.Keys
    requires |ids| == |batch| && forall i :: 0 <= i < |ids| ==> ids[i] in store && batch[i] == store[ids[i]]
    requires forall a, b :: a in store && b in store && store[a] == store[b] ==> a == b
    requires forall i, j :: 0 <= i < j < |ids| ==> ids[i] != ids[j]
    ensures Earliest(ids, candidates, time, limit) <==> Spelled(store, ids, batch, time, candidates, limit)
  {
    forall k | k in store ensures k in ids <==> store[k] in batch {
      Listed(store, ids, batch, k);
    }
  }

  lemma ClosingTakesPending(s: State, batch: seq<Entry>)
    requires Keyed(s) && ClosingBatch(s, batch)
    ensures TakesPending(s, batch)
  {
    var ids :| ClosingIds(s, batch, ids);
    EarliestSpelled(s.entries, ids, batch, CreationTimes(s), PendingEntries(s), 500);
  }

  lemma PendingIsClosing(s: State, batch: seq<Entry>)
    requires Keyed(s) && TakesPending(s, batch)
    ensures ClosingBatch(s, batch)
  {
    var ids := seq(|batch|, i requires 0 <= i < |batch| => batch[i].id);
    EarliestSpelled(s.entries, ids, batch, CreationTimes(s), PendingEntries(s), 500);
    assert ClosingIds(s, batch, ids);
  }

  lemma DueTakesDue(s: State, now: int, limit: nat, batch: seq<QueueRecord>)
    requires Keyed(s) && DueBatch(s, now, limit, batch)
    ensures TakesDue(s, now, limit, batch)
  {
    var ids :| DueIds(s, now, limit, batch, ids);
    EarliestSpelled(s.queue, ids, batch, DueTimes(s), DueRecords(s, now), limit);
  }

  lemma TakesDueIsDue(s: State, now: int, limit: nat, batch: seq<QueueRecord>)
    requires Keyed(s) && TakesDue(s, now, limit, batch)
    ensures DueBatch(s, now, limit, batch)
  {
    var ids := seq(|batch|, i requires 0 <= i < |batch| => batch[i].id);
    EarliestSpelled(s.queue, ids, batch, DueTimes(s), DueRecords(s, now), limit);
    assert DueIds(s, now, limit, batch, ids);
  }

  /** A closing run and a retry run may take up exactly such batches. */
  lemma BatchesIff(s: State, entries: seq<Entry>, now: int, limit: nat, records: seq<QueueRecord>)
    requires Inv(s)
    ensures ClosingBatch(s, entries) <==> TakesPending(s, entries)
    ensures DueBatch(s, now, limit, records) <==> TakesDue(s, now, limit, records)
  {
    InvKeyed(s);
    if ClosingBatch(s, entries) {
      ClosingTakesPending(s, entries);
    }
    if TakesPending(s, entries) {
      PendingIsClosing(s, entries);
    }
    if DueBatch(s, now, limit, records) {
      DueTakesDue(s, now, limit, records);
    }
    if TakesDue(s, now, limit, records) {
      TakesDueIsDue(s, now, limit, records);
    }
  }

  // ------------------------------------------------------ what becomes of them

  /** Neither entry x nor its queue record changes. */
  ghost predicate Untouched(s: State, s': State, x: string) {
    && (x in s'.entries <==> x in s.entries) && (x in s.entries ==> s'.entries[x] == s.entries[x])
    && ("retry-" + x in s'.queue <==> "retry-" + x in s.queue)
    && ("retry-" + x in s.queue ==> s'.queue["retry-" + x] == s.queue["retry-" + x])
  }

  lemma AttemptTouches(c: Config, s: State, s': State, b: string, x: string)
    requires Attempted(c, s, s', b) && x != b
    ensures Untouched(s, s', x)
  {
    if QueueId(x) == QueueId(b) {
      QueueIdInjective(x, b);
    }
  }

  /** What closing pending entry e with this answer leaves: confirmed; failed when the maximum
      is used up; or in retry, due again after the closing delay. */
  ghost predicate EntryClosed(c: Config, s: State, e: Entry, answer: Answer) {
    var n, q := e.retryCount.GetOr(0) + 1, "retry-" + e.id;
    && e.id in s.entries
    && match answer.error
       case None => s.entries[e.id] == e.(status := Confirmed) && q !in s.queue
       case Some(error) =>
         if n >= c.closingMax then
           s.entries[e.id] == e.(status := Failed, retryCount := Some(n), lastError := Some(error)) && q !in s.queue
         else
           var due := answer.at + c.closingDelay;
           && s.entries[e.id] == e.(status := Retry, retryCount := Some(n), lastError := Some(error), holdUntil := Some(due))
           && q in s.queue && s.queue[q] == QueueRecord(q, e.id, due, n, Waiting, Some(error))
  }

  lemma CloseEffect(c: Config, s: State, e: Entry, answer: Answer)
    requires Inv(s) && e.id in s.entries && s.entries[e.id] == e && e.status == Pending
    ensures var s' := CloseOne(c, s, e, answer);
      EntryClosed(c, s', e, answer) && s'.calls == s.calls + [Call(e.id, e.userId, e.amount, answer.error.None?)]
  {
    assert InStep(s, e.id);
  }

  /** What retrying entry e, waiting as record q, with this answer leaves: confirmed; failed
      when the maximum is used up; or due again after base * factor^(n-1) minutes. */
  ghost predicate EntryRetried(c: Config, s: State, e: Entry, q: QueueRecord, answer: Answer) {
    var n := e.retryCount.GetOr(0) + 1;
    && e.id in s.entries && q.id in s.queue
    && match answer.error
       case None => s.entries[e.id] == e.(status := Confirmed) && s.queue[q.id] == q.(status := Completed)
       case Some(error) =>
         if n >= c.retryMax then
           && s.entries[e.id] == e.(status := Failed, retryCount := Some(n), lastError := Some(error))
           && s.queue[q.id] == q.(status := Abandoned, reason := Some(error))
         else
           var due := answer.at + c.baseDelay * Power(if c.backoffFactor > 1 then c.backoffFactor else 1, if n > 1 then n - 1 else 0);
           && s.entries[e.id] == e.(status := Retry, retryCount := Some(n), lastError := Some(error), holdUntil := Some(due))
           && s.queue[q.id] == QueueRecord(q.id, e.id, due, if n != 0 then n else q.retryCount, Waiting, Some(error))
  }

  lemma RetryEffect(c: Config, s: State, q: QueueRecord, answer: Answer)
    requires Inv(s) && q.id in s.queue && s.queue[q.id] == q && q.status == Waiting
    ensures q.bonusId in s.entries && q.id == "retry-" + q.bonusId
    ensures var s', e := RetryOne(c, s, q, answer).0, s.entries[q.bonusId];
      && e.id == q.bonusId && EntryRetried(c, s', e, q, answer)
      && s'.calls == s.calls + [Call(e.id, e.userId, e.amount, answer.error.None?)]
  {
    assert Queued(s, q.id) && InStep(s, q.bonusId);
  }

  // ------------------------------------------------------------------ closing

  /** The first n entries of the batch were called for, in order, and closed; nothing else moved. */
  ghost predicate ClosedUpTo(c: Config, s: State, s': State, batch: seq<Entry>, creditor: Creditor, n: nat)
    requires n <= |batch|
  {
    && |s'.calls| == |s.calls| + n && s'.calls[..|s.calls|] == s.calls
    && (forall i {:trigger batch[i]} :: 0 <= i < n ==>
          && s'.calls[|s.calls| + i] == Call(batch[i].id, batch[i].userId, batch[i].amount, creditor(i).error.None?)
          && EntryClosed(c, s', batch[i], creditor(i)))
    && (forall x {:trigger Untouched(s, s', x)} :: (forall i :: 0 <= i < n ==> batch[i].id != x) ==> Untouched(s, s', x))
  }

  lemma NextClosed(c: Config, s: State, s1: State, s2: State, batch: seq<Entry>, creditor: Creditor, n: nat)
    requires n < |batch| && ClosedUpTo(c, s, s1, batch, creditor, n) && Attempted(c, s1, s2, batch[n].id)
    requires forall i, j :: 0 <= i < j < |batch| ==> batch[i].id != batch[j].id
    requires EntryClosed(c, s2, batch[n], creditor(n))
    requires s2.calls == s1.calls + [Call(batch[n].id, batch[n].userId, batch[n].amount, creditor(n).error.None?)]
    ensures ClosedUpTo(c, s, s2, batch, creditor, n + 1)
  {
    forall i | 0 <= i < n + 1 ensures EntryClosed(c, s2, batch[i], creditor(i)) {
      if i < n {
        AttemptTouches(c, s1, s2, batch[n].id, batch[i].id);
      }
    }
    forall x | forall i :: 0 <= i < n + 1 ==> batch[i].id != x ensures Untouched(s, s2, x) {
      assert Untouched(s, s1, x);
      AttemptTouches(c, s1, s2, batch[n].id, x);
    }
  }

  lemma {:induction false} ClosedAll(c: Config, s: State, batch: seq<Entry>, creditor: Creditor, n: nat) returns (s': State)
    requires Inv(s) && Fresh(s, batch, 0) && n <= |batch|
    ensures s' == CloseBatch(c, s, batch, creditor, n) && Inv(s') && Fresh(s', batch, n)
    ensures ClosedUpTo(c, s, s', batch, creditor, n)
  {
    if n == 0 {
      s' := s;
    } else {
      var s1 := ClosedAll(c, s, batch, creditor, n - 1);
      s' := CloseStep(c, s, s1, batch, creditor, n - 1);
      FreshAfter(c, s1, s', batch, n - 1);
      NextClosed(c, s, s1, s', batch, creditor, n - 1);
    }
  }

  lemma CloseStep(c: Config, s: State, s1: State, batch: seq<Entry>, creditor: Creditor, n: nat) returns (s2: State)
    requires n < |batch| && s1 == CloseBatch(c, s, batch, creditor, n) && Inv(s1) && Fresh(s1, batch, n)
    ensures s2 == CloseBatch(c, s, batch, creditor, n + 1)
    ensures Inv(s2) && Attempted(c, s1, s2, batch[n].id) && EntryClosed(c, s2, batch[n], creditor(n))
    ensures s2.calls == s1.calls + [Call(batch[n].id, batch[n].userId, batch[n].amount, creditor(n).error.None?)]
  {
    s2 := CloseNext(c, s, s1, batch, creditor, n);
    CloseEffect(c, s1, batch[n], creditor(n));
  }

  /** A closing run takes up pending entries only, calls the creditor once for each, in
      order, and leaves each as its own answer says and everything else alone. */
  lemma ClosingExact(c: Config, s: State, batch: seq<Entry>, creditor: Creditor)
    requires Inv(s) && ClosingBatch(s, batch)
    ensures TakesPending(s, batch)
    ensures ClosedUpTo(c, s, Step(c, s, RunClosing(batch, creditor)), batch, creditor, |batch|)
  {
    BatchesIff(s, batch, 0, 0, []);
    ClosingBatchFresh(s, batch);
    var s' := ClosedAll(c, s, batch, creditor, |batch|);
  }

  // ------------------------------------------------------------------ retrying

  ghost predicate RetriedUpTo(c: Config, s: State, s': State, batch: seq<QueueRecord>, creditor: Creditor, n: nat)
    requires n <= |batch| && forall i :: 0 <= i < |batch| ==> batch[i].bonusId in s.entries
  {
    && |s'.calls| == |s.calls| + n && s'.calls[..|s.calls|] == s.calls
    && (forall i {:trigger batch[i]} :: 0 <= i < n ==>
          var e := s.entries[batch[i].bonusId];
          && s'.calls[|s.calls| + i] == Call(e.id, e.userId, e.amount, creditor(i).error.None?)
          && EntryRetried(c, s', e, batch[i], creditor(i)))
    && (forall x {:trigger Untouched(s, s', x)} :: (forall i :: 0 <= i < n ==> batch[i].bonusId != x) ==> Untouched(s, s', x))
  }

  /** The records of the batch are waiting for different entries, all stored. */
  ghost predicate Waits(s: State, batch: seq<QueueRecord>) {
    && (forall i :: 0 <= i < |batch| ==>
          && batch[i].id == "retry-" + batch[i].bonusId
          && batch[i].bonusId in s.entries && s.entries[batch[i].bonusId].id == batch[i].bonusId)
    && (forall i, j :: 0 <= i < j < |batch| ==> batch[i].bonusId != batch[j].bonusId)
  }

  lemma DueWaits(s: State, batch: seq<QueueRecord>)
    requires Inv(s) && Due(s, batch, 0)
    ensures Waits(s, batch)
  {
    forall i | 0 <= i < |batch|
      ensures batch[i].id == "retry-" + batch[i].bonusId && batch[i].bonusId in s.entries && s.entries[batch[i].bonusId].id == batch[i].bonusId
    {
      assert Queued(s, batch[i].id) && InStep(s, batch[i].bonusId);
    }
  }

  lemma NextRetried(c: Config, s: State, s1: State, s2: State, batch: seq<QueueRecord>, creditor: Creditor, n: nat)
    requires n < |batch| && Waits(s, batch) && RetriedUpTo(c, s, s1, batch, creditor, n) && Attempted(c, s1, s2, batch[n].bonusId)
    requires EntryRetried(c, s2, s.entries[batch[n].bonusId], batch[n], creditor(n))
    requires var e := s.entries[batch[n].bonusId]; s2.calls == s1.calls + [Call(e.id, e.userId, e.amount, creditor(n).error.None?)]
    ensures RetriedUpTo(c, s, s2, batch, creditor, n + 1)
  {
    forall i | 0 <= i < n + 1 ensures EntryRetried(c, s2, s.entries[batch[i].bonusId], batch[i], creditor(i)) {
      if i < n {
        AttemptTouches(c, s1, s2, batch[n].bonusId, batch[i].bonusId);
      }
    }
    forall x | forall i :: 0 <= i < n + 1 ==> batch[i].bonusId != x ensures Untouched(s, s2, x) {
      assert Untouched(s, s1, x);
      AttemptTouches(c, s1, s2, batch[n].bonusId, x);
    }
  }

  /** The counts a retry run reports for its first n records. */
  function Confirmations(creditor: Creditor, n: nat): nat {
    if n == 0 then 0 else Confirmations(creditor, n - 1) + if creditor(n - 1).error.None? then 1 else 0
  }

  /** How many of the first n retries raise and use up the maximum. */
  function Exhaustions(c: Config, s: State, batch: seq<QueueRecord>, creditor: Creditor, n: nat): nat
    requires n <= |batch| && forall i :: 0 <= i < |batch| ==> batch[i].bonusId in s.entries
  {
    if n == 0 then 0
    else
      Exhaustions(c, s, batch, creditor, n - 1)
        + if creditor(n - 1).error.Some? && s.entries[batch[n - 1].bonusId].retryCount.GetOr(0) + 1 >= c.retryMax then 1 else 0
  }

  ghost predicate Tallied(c: Config, s: State, batch: seq<QueueRecord>, creditor: Creditor, n: nat, t: Tally)
    requires n <= |batch| && forall i :: 0 <= i < |batch| ==> batch[i].bonusId in s.entries
  {
    && t.succeeded == Confirmations(creditor, n)
    && t.failed == Exhaustions(c, s, batch, creditor, n)
    && t.succeeded + t.failed + t.rescheduled == n
  }

  lemma RetryCounted(c: Config, s: State, q: QueueRecord, answer: Answer)
    requires Inv(s) && q.id in s.queue && s.queue[q.id] == q && q.status == Waiting
    ensures q.bonusId in s.entries
    ensures var outcome := RetryOne(c, s, q, answer).1;
      outcome == if answer.error.None? then Succeeded
                 else if s.entries[q.bonusId].retryCount.GetOr(0) + 1 >= c.retryMax then GaveUp
                 else Rescheduled
  {
    assert Queued(s, q.id) && InStep(s, q.bonusId);
  }

  lemma RetryStep(c: Config, s: State, s1: State, t1: Tally, batch: seq<QueueRecord>, creditor: Creditor, n: nat) returns (s2: State, t2: Tally)
    requires n < |batch| && Waits(s, batch) && (s1, t1) == RetryBatch(c, s, batch, creditor, n) && Inv(s1) && Due(s1, batch, n)
    requires Untouched(s, s1, batch[n].bonusId) && Tallied(c, s, batch, creditor, n, t1)
    ensures (s2, t2) == RetryBatch(c, s, batch, creditor, n + 1)
    ensures Inv(s2) && Attempted(c, s1, s2, batch[n].bonusId)
    ensures EntryRetried(c, s2, s.entries[batch[n].bonusId], batch[n], creditor(n))
    ensures var e := s.entries[batch[n].bonusId]; s2.calls == s1.calls + [Call(e.id, e.userId, e.amount, creditor(n).error.None?)]
    ensures Tallied(c, s, batch, creditor, n + 1, t2)
  {
    s2 := RetryNext(c, s, s1, batch, creditor, n);
    var outcome := RetryOne(c, s1, batch[n], creditor(n)).1;
    t2 := Count(t1, outcome);
    RetryEffect(c, s1, batch[n], creditor(n));
    RetryCounted(c, s1, batch[n], creditor(n));
  }

  lemma {:induction false} RetriedAll(c: Config, s: State, batch: seq<QueueRecord>, creditor: Creditor, n: nat) returns (s': State, t: Tally)
    requires Inv(s) && Due(s, batch, 0) && Waits(s, batch) && n <= |batch|
    ensures (s', t) == RetryBatch(c, s, batch, creditor, n) && Inv(s') && Due(s', batch, n)
    ensures RetriedUpTo(c, s, s', batch, creditor, n) && Tallied(c, s, batch, creditor, n, t)
  {
    if n == 0 {
      s', t := s, Tally(0, 0, 0);
    } else {
      var s1, t1 := RetriedAll(c, s, batch, creditor, n - 1);
      assert Untouched(s, s1, batch[n - 1].bonusId);
      s', t := RetryStep(c, s, s1, t1, batch, creditor, n - 1);
      DueAfter(c, s1, s', batch, n - 1);
      NextRetried(c, s, s1, s', batch, creditor, n - 1);
    }
  }

  /** A retry run takes up due records only, calls the creditor once for the entry of each, in
      order, leaves each entry and record as its own answer says and everything else alone,
      and reports how many credits succeeded, gave up and were put off. */
  lemma ProcessExact(c: Config, s: State, now: int, limit: nat, batch: seq<QueueRecord>, creditor: Creditor)
    requires Inv(s) && DueBatch(s, now, limit, batch)
    ensures TakesDue(s, now, limit, batch) && Waits(s, batch)
    ensures RetriedUpTo(c, s, Step(c, s, Process(now, limit, batch, creditor)), batch, creditor, |batch|)
    ensures Tallied(c, s, batch, creditor, |batch|, RetryBatch(c, s, batch, creditor, |batch|).1)
  {
    BatchesIff(s, [], now, limit, batch);
    DueBatchDue(s, now, limit, batch);
    DueWaits(s, batch);
    var s', t := RetriedAll(c, s, batch, creditor, |batch|);
  }
}
