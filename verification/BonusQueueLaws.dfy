/** Laws of closing and retrying: credits happen exactly once, entries and queue stay in
    step, and every attempt uses up a budget that is fixed when the entry is recorded. */
module BonusQueueLaws {
  import opened Wrappers
  import opened BonusQueue

  // ------------------------------------------------------------ sums over maps

  ghost function Total<K(!new)>(m: map<K, int>): int {
    if m == map[] then 0
    else
      var k :| k in m;
      m[k] + Total(m - {k})
  }

  lemma {:induction false} TotalPick<K(!new)>(m: map<K, int>, k: K)
    requires k in m
    ensures Total(m) == m[k] + Total(m - {k})
    decreases |m|
  {
    var j :| j in m && Total(m) == m[j] + Total(m - {j});
    if j != k {
      TotalPick(m - {j}, k);
      TotalPick(m - {k}, j);
      assert m - {j} - {k} == m - {k} - {j};
    }
  }

  lemma TotalAdd<K(!new)>(m: map<K, int>, k: K, v: int)
    requires k !in m
    ensures Total(m[k := v]) == Total(m) + v
  {
    TotalPick(m[k := v], k);
    assert m[k := v] - {k} == m;
  }

  lemma TotalReplace<K(!new)>(m: map<K, int>, k: K, v: int)
    requires k in m
    ensures Total(m[k := v]) == Total(m) - m[k] + v
  {
    TotalPick(m, k);
    TotalPick(m[k := v], k);
    assert m[k := v] - {k} == m - {k};
  }

  // --------------------------------------------------------------- vocabulary

  function Attempts(calls: seq<Call>, b: string): nat {
    if calls == [] then 0
    else Attempts(calls[..|calls| - 1], b) + if calls[|calls| - 1].bonusId == b then 1 else 0
  }

  function Credited(calls: seq<Call>, b: string): nat {
    if calls == [] then 0
    else
      var last := calls[|calls| - 1];
      Credited(calls[..|calls| - 1], b) + if last.bonusId == b && last.credited then 1 else 0
  }

  function CreditedAmount(calls: seq<Call>): int {
    if calls == [] then 0
    else
      var last := calls[|calls| - 1];
      CreditedAmount(calls[..|calls| - 1]) + if last.credited then last.amount else 0
  }

  lemma CallAppended(calls: seq<Call>, call: Call, b: string)
    ensures Attempts(calls + [call], b) == Attempts(calls, b) + if call.bonusId == b then 1 else 0
    ensures Credited(calls + [call], b) == Credited(calls, b) + if call.bonusId == b && call.credited then 1 else 0
    ensures CreditedAmount(calls + [call]) == CreditedAmount(calls) + if call.credited then call.amount else 0
  {
    assert (calls + [call])[..|calls + [call]| - 1] == calls;
  }

  function ConfirmedAmounts(entries: map<string, Entry>): map<string, int> {
    map b | b in entries && entries[b].status == Confirmed :: entries[b].amount
  }

  lemma QueueIdInjective(a: string, b: string)
    requires QueueId(a) == QueueId(b)
    ensures a == b
  {
    assert QueueId(a)[6..] == a && QueueId(b)[6..] == b;
  }

  // ---------------------------------------------------------------- invariant

  /** The queue keeps the entry's count, but a count of zero is not written over minus one. */
  predicate Matches(queued: int, count: int) { queued == count || (queued == -1 && count == 0) }

  /** Entry b, its queue record and the credits made for it agree. */
  ghost predicate InStep(s: State, b: string) {
    var q := QueueId(b);
    if b !in s.entries then q !in s.queue && Attempts(s.calls, b) == 0 && Credited(s.calls, b) == 0
    else
      var e := s.entries[b];
      && e.id == b
      && Credited(s.calls, b) == (if e.status == Confirmed then 1 else 0)
      && match e.status
         case Pending => q !in s.queue && Attempts(s.calls, b) == 0
         case Retry => q in s.queue && s.queue[q].status == Waiting && Matches(s.queue[q].retryCount, e.retryCount.GetOr(0))
         case Confirmed => q in s.queue ==> s.queue[q].status == Completed
         case Failed => q in s.queue ==> s.queue[q].status == Abandoned
  }

  ghost predicate Queued(s: State, q: string) {
    q in s.queue ==> s.queue[q].id == q && q == QueueId(s.queue[q].bonusId) && s.queue[q].bonusId in s.entries
  }

  ghost predicate Inv(s: State) {
    && (forall b {:trigger InStep(s, b)} :: InStep(s, b))
    && (forall q {:trigger Queued(s, q)} :: Queued(s, q))
    && Total(ConfirmedAmounts(s.entries)) == CreditedAmount(s.calls)
  }

  /** The credit attempts entry e can still see, at most. */
  function Budget(c: Config, e: Entry): nat {
    var n := e.retryCount.GetOr(0);
    match e.status
    case Pending => 1 + if n + 1 >= c.closingMax then 0 else Max(1, c.retryMax - n - 1)
    case Retry => Max(1, c.retryMax - n)
    case _ => 0
  }

  function Budgets(c: Config, entries: map<string, Entry>): map<string, int> {
    map b | b in entries :: Budget(c, entries[b])
  }

  /** One attempt on entry b: everything of other entries is untouched, b keeps its terms,
      one call was made for it, and its budget has shrunk. */
  ghost predicate Attempted(c: Config, s: State, s': State, b: string) {
    && b in s.entries && b in s'.entries
    && s'.entries == s.entries[b := s'.entries[b]]
    && (forall q :: q != QueueId(b) ==> (q in s'.queue <==> q in s.queue) && (q in s.queue ==> s'.queue[q] == s.queue[q]))
    && s'.entries[b].amount == s.entries[b].amount && s'.entries[b].userId == s.entries[b].userId
    && Budget(c, s'.entries[b]) < Budget(c, s.entries[b])
    && s'.entries[b].status != Pending
    && (s'.entries[b].status == Retry ==> s'.entries[b].retryCount.GetOr(0) < Max(c.closingMax, c.retryMax))
    && (s'.entries[b].status == Retry ==> CountRaised(s, s', b))
    && |s'.calls| == |s.calls| + 1 && s'.calls == s.calls + [s'.calls[|s.calls|]]
    && var call := s'.calls[|s.calls|];
    && call.bonusId == b && call.amount == s.entries[b].amount
    && (call.credited <==> s'.entries[b].status == Confirmed)
  }

  /** The entry's count goes up by one, and the queue takes it over unless it is zero. */
  ghost predicate CountRaised(s: State, s': State, b: string)
    requires b in s.entries && b in s'.entries
  {
    var q, count := QueueId(b), s'.entries[b].retryCount.GetOr(0);
    && count == s.entries[b].retryCount.GetOr(0) + 1
    && q in s'.queue
    && s'.queue[q].retryCount == if count != 0 then count else if q in s.queue then s.queue[q].retryCount else 0
  }

  /** What an attempt must leave behind for entry b itself. */
  ghost predicate LeftInStep(s: State, b: string) {
    var q := QueueId(b);
    && b in s.entries && s.entries[b].id == b
    && (q in s.queue ==> s.queue[q].id == q && s.queue[q].bonusId == b)
    && var e := s.entries[b];
       match e.status
       case Pending => false
       case Retry => q in s.queue && s.queue[q].status == Waiting && Matches(s.queue[q].retryCount, e.retryCount.GetOr(0))
       case Confirmed => q in s.queue ==> s.queue[q].status == Completed
       case Failed => q in s.queue ==> s.queue[q].status == Abandoned
  }

  lemma AttemptInStep(c: Config, s: State, s': State, b: string, x: string)
    requires InStep(s, x) && Attempted(c, s, s', b) && s.entries[b].status != Confirmed && LeftInStep(s', b)
    ensures InStep(s', x)
  {
    CallAppended(s.calls, s'.calls[|s.calls|], x);
    if x != b && QueueId(x) == QueueId(b) {
      QueueIdInjective(x, b);
    }
  }

  lemma AttemptConserves(c: Config, s: State, s': State, b: string)
    requires Attempted(c, s, s', b) && s.entries[b].status != Confirmed
    requires Total(ConfirmedAmounts(s.entries)) == CreditedAmount(s.calls)
    ensures Total(ConfirmedAmounts(s'.entries)) == CreditedAmount(s'.calls)
  {
    CallAppended(s.calls, s'.calls[|s.calls|], b);
    var was, now := ConfirmedAmounts(s.entries), ConfirmedAmounts(s'.entries);
    if s'.entries[b].status == Confirmed {
      assert now == was[b := s.entries[b].amount];
      TotalAdd(was, b, s.entries[b].amount);
    } else {
      assert now == was;
    }
  }

  /** An attempt that brings b's own entry and record into step keeps the invariant. */
  lemma AttemptKeeps(c: Config, s: State, s': State, b: string)
    requires Inv(s) && Attempted(c, s, s', b) && s.entries[b].status != Confirmed && LeftInStep(s', b)
    ensures Inv(s')
  {
    forall x ensures InStep(s', x) {
      assert InStep(s, x);
      AttemptInStep(c, s, s', b, x);
    }
    forall q ensures Queued(s', q) {
      assert Queued(s, q);
    }
    AttemptConserves(c, s, s', b);
  }

  // ------------------------------------------------------------- one attempt

  /** Entry e became e' by one attempt, with at most its own queue record touched. */
  ghost predicate Posted(s: State, s': State, e: Entry, e': Entry) {
    && s'.entries == s.entries[e.id := e'] && e'.id == e.id
    && s'.calls == s.calls + [Call(e.id, e.userId, e.amount, e'.status == Confirmed)]
    && forall q :: q != QueueId(e.id) ==> (q in s'.queue <==> q in s.queue) && (q in s.queue ==> s'.queue[q] == s.queue[q])
  }

  /** An attempt settles entry e, or leaves it in retry with one more count below the maximum. */
  predicate Outgrown(e: Entry, e': Entry, maximum: int) {
    && e'.amount == e.amount && e'.userId == e.userId && e'.status != Pending
    && (e'.status == Retry ==> e'.retryCount == Some(e.retryCount.GetOr(0) + 1) && e.retryCount.GetOr(0) + 1 < maximum)
  }

  lemma PostedAttempt(c: Config, s: State, s': State, e: Entry, e': Entry)
    requires e.id in s.entries && s.entries[e.id] == e && Posted(s, s', e, e')
    requires (e.status == Pending && Outgrown(e, e', c.closingMax)) || (e.status == Retry && Outgrown(e, e', c.retryMax))
    requires e'.status == Retry ==> CountRaised(s, s', e.id)
    ensures Attempted(c, s, s', e.id)
  {
  }

  lemma ClosePosts(c: Config, s: State, e: Entry, answer: Answer)
    requires InStep(s, e.id) && e.id in s.entries && s.entries[e.id] == e && e.status == Pending
    ensures var s' := CloseOne(c, s, e, answer);
      e.id in s'.entries && Posted(s, s', e, s'.entries[e.id]) && LeftInStep(s', e.id)
      && Outgrown(e, s'.entries[e.id], c.closingMax)
      && (s'.entries[e.id].status == Retry ==> CountRaised(s, s', e.id))
  {
  }

  lemma CloseOneKeeps(c: Config, s: State, e: Entry, answer: Answer)
    requires Inv(s) && e.id in s.entries && s.entries[e.id] == e && e.status == Pending
    ensures Inv(CloseOne(c, s, e, answer)) && Attempted(c, s, CloseOne(c, s, e, answer), e.id)
  {
    var s' := CloseOne(c, s, e, answer);
    assert InStep(s, e.id);
    ClosePosts(c, s, e, answer);
    PostedAttempt(c, s, s', e, s'.entries[e.id]);
    AttemptKeeps(c, s, s', e.id);
  }

  lemma RetryPosts(c: Config, s: State, q: QueueRecord, answer: Answer)
    requires InStep(s, q.bonusId) && Queued(s, q.id) && q.id in s.queue && s.queue[q.id] == q && q.status == Waiting
    ensures q.bonusId in s.entries && s.entries[q.bonusId].status == Retry && s.entries[q.bonusId].id == q.bonusId
    ensures var s', e := RetryOne(c, s, q, answer).0, s.entries[q.bonusId];
      e.id in s'.entries && Posted(s, s', e, s'.entries[e.id]) && LeftInStep(s', e.id)
      && Outgrown(e, s'.entries[e.id], c.retryMax)
      && (s'.entries[e.id].status == Retry ==> CountRaised(s, s', e.id))
  {
  }

  lemma RetryOneKeeps(c: Config, s: State, q: QueueRecord, answer: Answer)
    requires Inv(s) && q.id in s.queue && s.queue[q.id] == q && q.status == Waiting
    ensures Inv(RetryOne(c, s, q, answer).0) && Attempted(c, s, RetryOne(c, s, q, answer).0, q.bonusId)
  {
    var s' := RetryOne(c, s, q, answer).0;
    assert Queued(s, q.id) && InStep(s, q.bonusId);
    RetryPosts(c, s, q, answer);
    PostedAttempt(c, s, s', s.entries[q.bonusId], s'.entries[q.bonusId]);
    AttemptKeeps(c, s, s', q.bonusId);
  }

  /** Closing confirms an entry, puts it in retry, or fails it for good: the last exactly
      when the call raised and used up the maximum. */
  lemma ClosingOutcome(c: Config, s: State, e: Entry, answer: Answer)
    requires e.id in s.entries && s.entries[e.id] == e && e.status == Pending
    ensures e.id in CloseOne(c, s, e, answer).entries
    ensures var now := CloseOne(c, s, e, answer).entries[e.id];
      && (now.status == Confirmed <==> answer.error.None?)
      && (now.status == Failed <==> answer.error.Some? && e.retryCount.GetOr(0) + 1 >= c.closingMax)
      && (now.status == Retry <==> answer.error.Some? && e.retryCount.GetOr(0) + 1 < c.closingMax)
      && (answer.error.Some? ==> now.retryCount == Some(e.retryCount.GetOr(0) + 1) && now.lastError == answer.error)
  {
  }

  /** A retry that fails short of the maximum is due again base * factor^(n-1) minutes
      later, n being the new retry count; success and exhaustion settle the entry. */
  lemma RetryOutcome(c: Config, s: State, q: QueueRecord, answer: Answer)
    requires Inv(s) && q.id in s.queue && s.queue[q.id] == q && q.status == Waiting
    ensures q.bonusId in s.entries
    ensures var (s', outcome) := RetryOne(c, s, q, answer);
      var n := s.entries[q.bonusId].retryCount.GetOr(0) + 1;
      && q.bonusId in s'.entries
      && var now := s'.entries[q.bonusId];
      match outcome
      case Succeeded => answer.error.None? && now.status == Confirmed
      case GaveUp => answer.error.Some? && now.status == Failed && n >= c.retryMax
      case Rescheduled =>
        && answer.error.Some? && now.status == Retry && now.retryCount == Some(n) && n < c.retryMax
        && q.id in s'.queue
        && s'.queue[q.id].retryAfter == answer.at + c.baseDelay * Power(Max(c.backoffFactor, 1), Max(n - 1, 0))
  {
    assert Queued(s, q.id) && InStep(s, q.bonusId);
  }

  /** A rescheduled retry leaves entry and queue with the same count if and only if the
      count it started from is not minus one: a new count of zero is not written to the queue. */
  lemma CountInStepIff(c: Config, s: State, q: QueueRecord, answer: Answer)
    requires Queued(s, q.id) && q.id in s.queue && s.queue[q.id] == q
    requires s.entries[q.bonusId].id == q.bonusId && s.entries[q.bonusId].retryCount.GetOr(0) == q.retryCount
    requires RetryOne(c, s, q, answer).1 == Rescheduled
    ensures var s' := RetryOne(c, s, q, answer).0;
      && q.bonusId in s'.entries && q.id in s'.queue
      && (s'.queue[q.id].retryCount == s'.entries[q.bonusId].retryCount.GetOr(0) <==> q.retryCount != -1)
  {
  }

  /** So an entry recorded with a retry count of minus two falls out of step at its first retry. */
  lemma CountOutOfStep()
    ensures var c := Config(10, 5, 15, 2, 5);
      var fail := Answer(Some("error"), 0);
      var e := Entry("b", "u", 1, 0, Pending, Some(-2), None, None);
      var s1 := CloseOne(c, State(map["b" := e], map[], []), e, fail);
      && QueueId("b") in s1.queue
      && var (s2, outcome) := RetryOne(c, s1, s1.queue[QueueId("b")], fail);
      && outcome == Rescheduled && "b" in s2.entries && QueueId("b") in s2.queue
      && s2.entries["b"].retryCount == Some(0) && s2.queue[QueueId("b")].retryCount == -1
  {
  }

  lemma {:induction false} PowerPositive(b: int, n: nat)
    requires b >= 1
    ensures Power(b, n) >= 1
  {
    if n > 0 {
      PowerPositive(b, n - 1);
      Grow(1, b, Power(b, n - 1));
    }
  }

  lemma Grow(a: int, b: int, x: int)
    requires a <= b && x >= 0
    ensures a * x <= b * x
  {
  }

  /** Delays never shrink from one failure to the next. */
  lemma DelayNeverShrinks(c: Config, n: int, m: int)
    requires c.baseDelay >= 0 && n <= m
    ensures Delay(c, n) <= Delay(c, m)
    decreases m - n
  {
    if n < m {
      DelayNeverShrinks(c, n, m - 1);
      var f := Max(c.backoffFactor, 1);
      if m >= 2 {
        PowerPositive(f, m - 2);
        Grow(1, f, Power(f, m - 2));
        Grow(Power(f, m - 2), Power(f, m - 1), c.baseDelay);
      }
    }
  }

  // ------------------------------------------------------------------ batches

  lemma AttemptLowersTotal(c: Config, s: State, s': State, b: string)
    requires Attempted(c, s, s', b)
    ensures Total(Budgets(c, s'.entries)) < Total(Budgets(c, s.entries))
  {
    assert Budgets(c, s'.entries) == Budgets(c, s.entries)[b := Budget(c, s'.entries[b])];
    TotalReplace(Budgets(c, s.entries), b, Budget(c, s'.entries[b]));
  }

  /** Entry b, as recorded at first: its terms never change, and the attempts made plus the
      budget left never exceed the budget it started with. */
  ghost predicate WithinAt(c: Config, s: State, origin: map<string, Entry>, b: string) {
    && (b in s.entries <==> b in origin)
    && (b in origin ==>
          && Attempts(s.calls, b) + Budget(c, s.entries[b]) <= Budget(c, origin[b])
          && s.entries[b].amount == origin[b].amount && s.entries[b].userId == origin[b].userId
          && (s.entries[b].status == Pending ==> s.entries[b] == origin[b])
          && (s.entries[b].status == Retry ==> s.entries[b].retryCount.GetOr(0) < Max(c.closingMax, c.retryMax)))
  }

  /** Entry b in retry has a larger count than it was recorded with, and its queue record
      has that count too, unless the count came up to zero from below minus one. */
  ghost predicate CountAt(s: State, origin: map<string, Entry>, b: string) {
    b in s.entries && b in origin && s.entries[b].status == Retry ==>
      var first, count := origin[b].retryCount.GetOr(0), s.entries[b].retryCount.GetOr(0);
      && count > first && QueueId(b) in s.queue
      && s.queue[QueueId(b)].retryCount == if first <= -2 && count == 0 then -1 else count
  }

  ghost predicate Within(c: Config, s: State, origin: map<string, Entry>) {
    && (forall b {:trigger WithinAt(c, s, origin, b)} :: WithinAt(c, s, origin, b))
    && (forall b {:trigger CountAt(s, origin, b)} :: CountAt(s, origin, b))
  }

  lemma AttemptCounts(c: Config, s: State, s': State, origin: map<string, Entry>, b: string, x: string)
    requires Attempted(c, s, s', b) && InStep(s, b) && WithinAt(c, s, origin, b) && CountAt(s, origin, b) && CountAt(s, origin, x)
    ensures CountAt(s', origin, x)
  {
    if x != b && QueueId(x) == QueueId(b) {
      QueueIdInjective(x, b);
    }
  }

  lemma AttemptWithin(c: Config, s: State, s': State, origin: map<string, Entry>, b: string)
    requires Attempted(c, s, s', b) && Within(c, s, origin) && InStep(s, b)
    ensures Within(c, s', origin)
  {
    assert WithinAt(c, s, origin, b) && CountAt(s, origin, b);
    forall x ensures WithinAt(c, s', origin, x) {
      assert WithinAt(c, s, origin, x);
      CallAppended(s.calls, s'.calls[|s.calls|], x);
    }
    forall x ensures CountAt(s', origin, x) {
      assert CountAt(s, origin, x);
      AttemptCounts(c, s, s', origin, b, x);
    }
  }

  /** What holds after a number of attempts of one batch that started in s. */
  ghost predicate Advanced(c: Config, s: State, s': State, origin: map<string, Entry>, attempts: nat) {
    && Inv(s') && Within(c, s', origin)
    && |s'.calls| == |s.calls| + attempts
    && Total(Budgets(c, s'.entries)) + attempts <= Total(Budgets(c, s.entries))
  }

  lemma NothingAdvanced(c: Config, s: State, origin: map<string, Entry>)
    requires Inv(s) && Within(c, s, origin)
    ensures Advanced(c, s, s, origin, 0)
  {
  }

  lemma AdvanceOne(c: Config, s: State, s1: State, s2: State, origin: map<string, Entry>, attempts: nat, b: string)
    requires Advanced(c, s, s1, origin, attempts) && Attempted(c, s1, s2, b) && Inv(s2)
    ensures Advanced(c, s, s2, origin, attempts + 1)
  {
    AttemptLowersTotal(c, s1, s2, b);
    assert InStep(s1, b);
    AttemptWithin(c, s1, s2, origin, b);
  }

  /** The batch lists distinct pending entries as they are stored. */
  ghost predicate Fresh(s: State, batch: seq<Entry>, from: nat) {
    && (forall i :: from <= i < |batch| ==> batch[i].id in s.entries && s.entries[batch[i].id] == batch[i] && batch[i].status == Pending)
    && (forall i, j :: from <= i < j < |batch| ==> batch[i].id != batch[j].id)
  }

  lemma ClosingBatchFresh(s: State, batch: seq<Entry>)
    requires Inv(s) && ClosingBatch(s, batch)
    ensures Fresh(s, batch, 0)
  {
    var ids :| ClosingIds(s, batch, ids);
    ListedFresh(s, batch, ids);
  }

  lemma ListedFresh(s: State, batch: seq<Entry>, ids: seq<string>)
    requires ClosingIds(s, batch, ids) && forall b {:trigger InStep(s, b)} :: InStep(s, b)
    ensures Fresh(s, batch, 0)
  {
    forall i | 0 <= i < |batch| ensures batch[i].id == ids[i] && ids[i] in s.entries && batch[i].status == Pending {
      assert InStep(s, ids[i]);
    }
  }

  lemma FreshAfter(c: Config, s: State, s': State, batch: seq<Entry>, n: nat)
    requires n < |batch| && Fresh(s, batch, n) && Attempted(c, s, s', batch[n].id)
    ensures Fresh(s', batch, n + 1)
  {
  }

  lemma CloseAdvances(c: Config, s: State, s1: State, s2: State, origin: map<string, Entry>, batch: seq<Entry>, n: nat)
    requires n < |batch| && Advanced(c, s, s1, origin, n) && Fresh(s1, batch, n)
    requires Inv(s2) && Attempted(c, s1, s2, batch[n].id)
    ensures Advanced(c, s, s2, origin, n + 1) && Fresh(s2, batch, n + 1)
  {
    AdvanceOne(c, s, s1, s2, origin, n, batch[n].id);
    FreshAfter(c, s1, s2, batch, n);
  }

  /** The attempt on entry n of the batch. */
  lemma CloseNext(c: Config, s: State, s1: State, batch: seq<Entry>, creditor: Creditor, n: nat) returns (s2: State)
    requires n < |batch| && s1 == CloseBatch(c, s, batch, creditor, n) && Inv(s1) && Fresh(s1, batch, n)
    ensures s2 == CloseBatch(c, s, batch, creditor, n + 1)
    ensures Inv(s2) && Attempted(c, s1, s2, batch[n].id)
  {
    s2 := CloseOne(c, s1, batch[n], creditor(n));
    CloseOneKeeps(c, s1, batch[n], creditor(n));
  }

  lemma {:induction false} CloseBatchAdvances(c: Config, s: State, origin: map<string, Entry>, batch: seq<Entry>, creditor: Creditor, n: nat)
    returns (s': State)
    requires Inv(s) && Within(c, s, origin) && Fresh(s, batch, 0) && n <= |batch|
    ensures s' == CloseBatch(c, s, batch, creditor, n)
    ensures Advanced(c, s, s', origin, n) && Fresh(s', batch, n)
  {
    if n == 0 {
      s' := s;
      NothingAdvanced(c, s, origin);
    } else {
      var s1 := CloseBatchAdvances(c, s, origin, batch, creditor, n - 1);
      s' := CloseNext(c, s, s1, batch, creditor, n - 1);
      CloseAdvances(c, s, s1, s', origin, batch, n - 1);
    }
  }

  ghost predicate Due(s: State, batch: seq<QueueRecord>, from: nat) {
    && (forall i :: from <= i < |batch| ==>
          && batch[i].id in s.queue && s.queue[batch[i].id] == batch[i]
          && batch[i].status == Waiting && batch[i].id == QueueId(batch[i].bonusId))
    && (forall i, j :: from <= i < j < |batch| ==> batch[i].id != batch[j].id)
  }

  lemma DueBatchDue(s: State, now: int, limit: nat, batch: seq<QueueRecord>)
    requires Inv(s) && DueBatch(s, now, limit, batch)
    ensures Due(s, batch, 0)
  {
    var ids :| DueIds(s, now, limit, batch, ids);
    ListedDue(s, now, limit, batch, ids);
  }

  lemma ListedDue(s: State, now: int, limit: nat, batch: seq<QueueRecord>, ids: seq<string>)
    requires DueIds(s, now, limit, batch, ids) && forall q {:trigger Queued(s, q)} :: Queued(s, q)
    ensures Due(s, batch, 0)
  {
    forall i | 0 <= i < |batch|
      ensures batch[i].id == ids[i] && ids[i] in s.queue && batch[i].status == Waiting && ids[i] == QueueId(batch[i].bonusId)
    {
      assert Queued(s, ids[i]);
    }
  }

  lemma DueAfter(c: Config, s: State, s': State, batch: seq<QueueRecord>, n: nat)
    requires n < |batch| && Due(s, batch, n) && Attempted(c, s, s', batch[n].bonusId)
    ensures Due(s', batch, n + 1)
  {
  }

  lemma RetryAdvances(c: Config, s: State, s1: State, s2: State, origin: map<string, Entry>, batch: seq<QueueRecord>, n: nat)
    requires n < |batch| && Advanced(c, s, s1, origin, n) && Due(s1, batch, n)
    requires Inv(s2) && Attempted(c, s1, s2, batch[n].bonusId)
    ensures Advanced(c, s, s2, origin, n + 1) && Due(s2, batch, n + 1)
  {
    AdvanceOne(c, s, s1, s2, origin, n, batch[n].bonusId);
    DueAfter(c, s1, s2, batch, n);
  }

  /** The attempt on record n of the batch. */
  lemma RetryNext(c: Config, s: State, s1: State, batch: seq<QueueRecord>, creditor: Creditor, n: nat) returns (s2: State)
    requires n < |batch| && s1 == RetryBatch(c, s, batch, creditor, n).0 && Inv(s1) && Due(s1, batch, n)
    ensures s2 == RetryBatch(c, s, batch, creditor, n + 1).0
    ensures Inv(s2) && Attempted(c, s1, s2, batch[n].bonusId)
  {
    s2 := RetryOne(c, s1, batch[n], creditor(n)).0;
    RetryOneKeeps(c, s1, batch[n], creditor(n));
  }

  lemma {:induction false} RetryBatchAdvances(c: Config, s: State, origin: map<string, Entry>, batch: seq<QueueRecord>, creditor: Creditor, n: nat)
    returns (s': State)
    requires Inv(s) && Within(c, s, origin) && Due(s, batch, 0) && n <= |batch|
    ensures s' == RetryBatch(c, s, batch, creditor, n).0
    ensures Advanced(c, s, s', origin, n) && Due(s', batch, n)
  {
    if n == 0 {
      s' := s;
      NothingAdvanced(c, s, origin);
    } else {
      var s1 := RetryBatchAdvances(c, s, origin, batch, creditor, n - 1);
      s' := RetryNext(c, s, s1, batch, creditor, n - 1);
      RetryAdvances(c, s, s1, s', origin, batch, n - 1);
    }
  }

  // --------------------------------------------------------------------- runs

  /** A bonus is recorded, the closing runs, or the retry queue is processed. */
  datatype Op =
    | Record(e: Entry)
    | RunClosing(batch: seq<Entry>, creditor: Creditor)
    | Process(now: int, limit: nat, retries: seq<QueueRecord>, creditor: Creditor)

  function Step(c: Config, s: State, op: Op): State {
    match op
    case Record(e) => if e.id in s.entries then s else s.(entries := s.entries[e.id := e])
    case RunClosing(batch, creditor) => CloseBatch(c, s, batch, creditor, |batch|)
    case Process(_, _, retries, creditor) => RetryBatch(c, s, retries, creditor, |retries|).0
  }

  ghost function Run(c: Config, ops: seq<Op>): State {
    if |ops| == 0 then EMPTY else Step(c, Run(c, ops[..|ops| - 1]), ops[|ops| - 1])
  }

  /** New entries are pending; batches are what the repository lists. */
  ghost predicate Legal(s: State, op: Op) {
    match op
    case Record(e) => e.status == Pending
    case RunClosing(batch, _) => ClosingBatch(s, batch)
    case Process(now, limit, retries, _) => DueBatch(s, now, limit, retries)
  }

  ghost predicate LegalRun(c: Config, ops: seq<Op>) {
    |ops| > 0 ==> LegalRun(c, ops[..|ops| - 1]) && Legal(Run(c, ops[..|ops| - 1]), ops[|ops| - 1])
  }

  /** The entries as they were first recorded. */
  ghost function Origins(ops: seq<Op>): map<string, Entry> {
    if |ops| == 0 then map[]
    else
      var before, op := Origins(ops[..|ops| - 1]), ops[|ops| - 1];
      if op.Record? && op.e.id !in before then before[op.e.id := op.e] else before
  }

  lemma RecordInStep(s: State, e: Entry)
    requires Inv(s) && e.status == Pending && e.id !in s.entries
    ensures Inv(s.(entries := s.entries[e.id := e]))
  {
    var s' := s.(entries := s.entries[e.id := e]);
    forall x ensures InStep(s', x) {
      assert InStep(s, x);
    }
    forall q ensures Queued(s', q) {
      assert Queued(s, q);
    }
    assert ConfirmedAmounts(s'.entries) == ConfirmedAmounts(s.entries);
  }

  lemma RecordWithin(c: Config, s: State, e: Entry, origin: map<string, Entry>)
    requires Inv(s) && Within(c, s, origin) && e.status == Pending && e.id !in s.entries
    ensures Within(c, s.(entries := s.entries[e.id := e]), origin[e.id := e])
  {
    var s', origin' := s.(entries := s.entries[e.id := e]), origin[e.id := e];
    forall x ensures WithinAt(c, s', origin', x) && CountAt(s', origin', x) {
      assert InStep(s, x) && WithinAt(c, s, origin, x) && CountAt(s, origin, x);
    }
  }

  lemma RecordKeeps(c: Config, s: State, e: Entry, origin: map<string, Entry>)
    requires Inv(s) && Within(c, s, origin) && e.status == Pending && e.id !in s.entries
    ensures var s' := s.(entries := s.entries[e.id := e]);
      Inv(s') && Within(c, s', origin[e.id := e])
      && Total(Budgets(c, s'.entries)) == Total(Budgets(c, s.entries)) + Budget(c, e)
  {
    var s', origin' := s.(entries := s.entries[e.id := e]), origin[e.id := e];
    RecordInStep(s, e);
    RecordWithin(c, s, e, origin);
    assert Budgets(c, s'.entries) == Budgets(c, s.entries)[e.id := Budget(c, e)];
    TotalAdd(Budgets(c, s.entries), e.id, Budget(c, e));
  }

  /** How many attempts a call makes. */
  function AttemptsOf(op: Op): nat {
    match op
    case Record(_) => 0
    case RunClosing(batch, _) => |batch|
    case Process(_, _, retries, _) => |retries|
  }

  lemma StepKeeps(c: Config, s: State, origin: map<string, Entry>, op: Op)
    requires Inv(s) && Within(c, s, origin) && Legal(s, op) && !op.Record?
    ensures Advanced(c, s, Step(c, s, op), origin, AttemptsOf(op))
  {
    match op
    case RunClosing(batch, creditor) =>
      ClosingBatchFresh(s, batch);
      var s' := CloseBatchAdvances(c, s, origin, batch, creditor, |batch|);
    case Process(now, limit, retries, creditor) =>
      DueBatchDue(s, now, limit, retries);
      var s' := RetryBatchAdvances(c, s, origin, retries, creditor, |retries|);
  }

  /** What holds on every legal run: entries, queue and credits are in step, every entry
      keeps within its own budget, and all attempts together within the sum of the budgets. */
  ghost predicate Settled(c: Config, s: State, origin: map<string, Entry>) {
    && Inv(s) && Within(c, s, origin)
    && |s.calls| + Total(Budgets(c, s.entries)) <= Total(Budgets(c, origin))
  }

  lemma OriginAdded(c: Config, origin: map<string, Entry>, e: Entry)
    requires e.id !in origin
    ensures Total(Budgets(c, origin[e.id := e])) == Total(Budgets(c, origin)) + Budget(c, e)
  {
    assert Budgets(c, origin[e.id := e]) == Budgets(c, origin)[e.id := Budget(c, e)];
    TotalAdd(Budgets(c, origin), e.id, Budget(c, e));
  }

  lemma RecordSettled(c: Config, s: State, e: Entry, origin: map<string, Entry>)
    requires Settled(c, s, origin) && Legal(s, Record(e))
    ensures Settled(c, Step(c, s, Record(e)), if e.id in origin then origin else origin[e.id := e])
  {
    assert WithinAt(c, s, origin, e.id);
    if e.id !in s.entries {
      RecordKeeps(c, s, e, origin);
      OriginAdded(c, origin, e);
    }
  }

  /** On every interleaving of recording, closing and retrying: entries, queue and credits
      are in step, and attempts stay within the budgets the entries were recorded with. */
  lemma {:induction false} RunKeeps(c: Config, ops: seq<Op>)
    requires LegalRun(c, ops)
    ensures Settled(c, Run(c, ops), Origins(ops))
  {
    if |ops| == 0 {
      assert forall b :: InStep(EMPTY, b) && WithinAt(c, EMPTY, map[], b) && CountAt(EMPTY, map[], b);
      assert forall q :: Queued(EMPTY, q);
      assert ConfirmedAmounts(EMPTY.entries) == map[] && Budgets(c, EMPTY.entries) == map[];
    } else {
      var before, op := ops[..|ops| - 1], ops[|ops| - 1];
      RunKeeps(c, before);
      if op.Record? {
        RecordSettled(c, Run(c, before), op.e, Origins(before));
      } else {
        StepKeeps(c, Run(c, before), Origins(before), op);
      }
    }
  }

  /** Exactly-once credit: what was credited in all is what the confirmed entries are worth,
      and each entry was credited once if it is confirmed and never otherwise. */
  lemma CreditedExactlyOnce(c: Config, ops: seq<Op>, b: string)
    requires LegalRun(c, ops)
    ensures var s := Run(c, ops);
      && CreditedAmount(s.calls) == Total(ConfirmedAmounts(s.entries))
      && Credited(s.calls, b) == (if b in s.entries && s.entries[b].status == Confirmed then 1 else 0)
  {
    RunKeeps(c, ops);
    assert InStep(Run(c, ops), b);
  }

  /** Between calls an entry is in retry exactly when its queue record waits.  Both have the
      same count if and only if the count is not zero or the entry was recorded with a count
      of at least minus one: from below, zero is not written over the minus one before it. */
  lemma RetryIffWaiting(c: Config, ops: seq<Op>, b: string)
    requires LegalRun(c, ops)
    ensures var s, q := Run(c, ops), QueueId(b);
      && ((b in s.entries && s.entries[b].status == Retry) <==> (q in s.queue && s.queue[q].status == Waiting))
      && (b in s.entries && s.entries[b].status == Retry ==>
            && b in Origins(ops)
            && var count := s.entries[b].retryCount.GetOr(0);
               s.queue[q].retryCount == count <==> count != 0 || Origins(ops)[b].retryCount.GetOr(0) >= -1)
      && (q in s.queue ==> s.queue[q].status != Processing)
  {
    RunKeeps(c, ops);
    assert InStep(Run(c, ops), b) && WithinAt(c, Run(c, ops), Origins(ops), b) && CountAt(Run(c, ops), Origins(ops), b);
  }

  /** With the same maximum M >= 1 in both services, an entry recorded with count n sees at
      most max(1, M - n) attempts, so no more than M unless n is negative. */
  lemma AttemptsBounded(c: Config, ops: seq<Op>, b: string)
    requires LegalRun(c, ops) && c.closingMax == c.retryMax >= 1 && b in Origins(ops)
    ensures var attempts, n := Attempts(Run(c, ops).calls, b), Origins(ops)[b].retryCount.GetOr(0);
      attempts <= Max(1, c.retryMax - n) && (n >= 0 ==> attempts <= c.retryMax)
  {
    var s, e := Traced(c, ops, b);
  }

  /** Where entry b, recorded as e, stands in s: how its attempts and budget relate to e. */
  ghost predicate Stands(c: Config, s: State, b: string, e: Entry) {
    && e.status == Pending && b in s.entries
    && Attempts(s.calls, b) + Budget(c, s.entries[b]) <= Budget(c, e)
    && (s.entries[b].status == Pending ==> s.entries[b] == e)
    && (s.entries[b].status == Retry ==> s.entries[b].retryCount.GetOr(0) < Max(c.closingMax, c.retryMax))
  }

  lemma Traced(c: Config, ops: seq<Op>, b: string) returns (s: State, e: Entry)
    requires LegalRun(c, ops) && b in Origins(ops)
    ensures s == Run(c, ops) && e == Origins(ops)[b] && Stands(c, s, b, e)
  {
    s, e := Run(c, ops), Origins(ops)[b];
    RunKeeps(c, ops);
    OriginsPending(c, ops, b);
    assert WithinAt(c, s, Origins(ops), b);
  }

  /** The budget of a new entry is within the maximum if and only if its count is not negative. */
  lemma BudgetWithinIff(c: Config, e: Entry)
    requires c.closingMax == c.retryMax >= 1 && e.status == Pending
    ensures Budget(c, e) <= c.retryMax <==> e.retryCount.GetOr(0) >= 0
  {
  }

  lemma {:induction false} OriginsPending(c: Config, ops: seq<Op>, b: string)
    requires LegalRun(c, ops) && b in Origins(ops)
    ensures Origins(ops)[b].status == Pending
  {
    var before := ops[..|ops| - 1];
    if b in Origins(before) {
      OriginsPending(c, before, b);
    }
  }

  /** With the same maximum M >= 1 in both services, the budget that every attempt lowers is
      max(1, M - retry_count) for an unsettled entry, and M - retry_count unless the entry
      was recorded with a count of M or more. */
  lemma BudgetIsRemaining(c: Config, ops: seq<Op>, b: string)
    requires LegalRun(c, ops) && c.closingMax == c.retryMax >= 1 && b in Origins(ops)
    ensures b in Run(c, ops).entries
    ensures var e := Run(c, ops).entries[b];
      && Budget(c, e) == (if e.status in {Pending, Retry} then Max(1, c.retryMax - e.retryCount.GetOr(0)) else 0)
      && (Origins(ops)[b].retryCount.GetOr(0) < c.retryMax && e.status in {Pending, Retry} ==>
            Budget(c, e) == c.retryMax - e.retryCount.GetOr(0))
  {
    var s, e := Traced(c, ops, b);
  }

  // ----------------------------------------------------------- the failed counter

  /** The closing call that raises uses up the maximum of entry e. */
  predicate Exhausts(c: Config, e: Entry, answer: Answer) {
    answer.error.Some? && e.retryCount.GetOr(0) + 1 >= c.closingMax
  }

  ghost predicate FailedIf(s: State, b: string, exhausted: bool) {
    b in s.entries && (s.entries[b].status == Failed <==> exhausted)
  }

  lemma OtherStays(c: Config, s: State, s': State, b: string, x: string, exhausted: bool)
    requires Attempted(c, s, s', b) && x != b && FailedIf(s, x, exhausted)
    ensures FailedIf(s', x, exhausted)
  {
  }

  /** The first n entries of the batch are failed exactly where their own call exhausted them. */
  ghost predicate ClosedEntries(c: Config, s: State, batch: seq<Entry>, creditor: Creditor, n: nat)
    requires n <= |batch|
  {
    forall i {:trigger batch[i]} :: 0 <= i < n ==> FailedIf(s, batch[i].id, Exhausts(c, batch[i], creditor(i)))
  }

  /** The attempt on entry n, with what it makes of that entry. */
  lemma CloseNextEntry(c: Config, s: State, s1: State, batch: seq<Entry>, creditor: Creditor, n: nat) returns (s2: State)
    requires n < |batch| && s1 == CloseBatch(c, s, batch, creditor, n) && Inv(s1) && Fresh(s1, batch, n)
    ensures s2 == CloseBatch(c, s, batch, creditor, n + 1)
    ensures Inv(s2) && Attempted(c, s1, s2, batch[n].id) && FailedIf(s2, batch[n].id, Exhausts(c, batch[n], creditor(n)))
  {
    s2 := CloseNext(c, s, s1, batch, creditor, n);
    ClosingOutcome(c, s1, batch[n], creditor(n));
  }

  lemma OneMoreClosed(c: Config, s: State, s': State, batch: seq<Entry>, creditor: Creditor, n: nat)
    requires n < |batch| && Attempted(c, s, s', batch[n].id) && ClosedEntries(c, s, batch, creditor, n)
    requires forall i, j :: 0 <= i < j < |batch| ==> batch[i].id != batch[j].id
    requires FailedIf(s', batch[n].id, Exhausts(c, batch[n], creditor(n)))
    ensures ClosedEntries(c, s', batch, creditor, n + 1)
  {
    forall i | 0 <= i < n + 1 ensures FailedIf(s', batch[i].id, Exhausts(c, batch[i], creditor(i))) {
      if i < n {
        OtherStays(c, s, s', batch[n].id, batch[i].id, Exhausts(c, batch[i], creditor(i)));
      }
    }
  }

  lemma {:induction false} BatchClosed(c: Config, s: State, batch: seq<Entry>, creditor: Creditor, n: nat) returns (s': State)
    requires Inv(s) && Fresh(s, batch, 0) && n <= |batch|
    ensures s' == CloseBatch(c, s, batch, creditor, n) && Inv(s') && Fresh(s', batch, n)
    ensures ClosedEntries(c, s', batch, creditor, n)
  {
    if n == 0 {
      s' := s;
    } else {
      var s1 := BatchClosed(c, s, batch, creditor, n - 1);
      s' := CloseNextEntry(c, s, s1, batch, creditor, n - 1);
      FreshAfter(c, s1, s', batch, n - 1);
      OneMoreClosed(c, s1, s', batch, creditor, n - 1);
    }
  }

  /** How many of the first n entries of the batch are failed in s. */
  function FailedEntries(s: State, batch: seq<Entry>, n: nat): nat
    requires n <= |batch|
  {
    if n == 0 then 0
    else
      FailedEntries(s, batch, n - 1)
        + if batch[n - 1].id in s.entries && s.entries[batch[n - 1].id].status == Failed then 1 else 0
  }

  lemma {:induction false} FailedEntriesZeroIff(s: State, batch: seq<Entry>, n: nat)
    requires n <= |batch|
    ensures FailedEntries(s, batch, n) == 0
       <==> forall i :: 0 <= i < n ==> !(batch[i].id in s.entries && s.entries[batch[i].id].status == Failed)
  {
    if n > 0 {
      FailedEntriesZeroIff(s, batch, n - 1);
    }
  }

  /** The failed counter of a closing job, which stays zero, is right if and only if no call
      of the batch both raised and used up the maximum. */
  lemma FailedCounterRightIff(c: Config, s: State, batch: seq<Entry>, creditor: Creditor)
    requires Inv(s) && ClosingBatch(s, batch)
    ensures FailedEntries(CloseBatch(c, s, batch, creditor, |batch|), batch, |batch|) == 0
       <==> forall i :: 0 <= i < |batch| ==> !Exhausts(c, batch[i], creditor(i))
  {
    ClosingBatchFresh(s, batch);
    var s' := BatchClosed(c, s, batch, creditor, |batch|);
    FailedEntriesZeroIff(s', batch, |batch|);
    assert forall i :: 0 <= i < |batch| ==> FailedIf(s', batch[i].id, Exhausts(c, batch[i], creditor(i)));
  }

  // ------------------------------------------------------------- concrete runs

  lemma RunAppend(c: Config, ops: seq<Op>, op: Op)
    ensures Run(c, ops + [op]) == Step(c, Run(c, ops), op)
    ensures LegalRun(c, ops + [op]) <==> LegalRun(c, ops) && Legal(Run(c, ops), op)
    ensures Origins(ops + [op]) == if op.Record? && op.e.id !in Origins(ops) then Origins(ops)[op.e.id := op.e] else Origins(ops)
  {
    assert (ops + [op])[..|ops + [op]| - 1] == ops;
  }

  /** One entry is recorded and closed, and the creditor raises. */
  lemma RecordedAndClosed(c: Config, e: Entry, creditor: Creditor)
    requires e.status == Pending
    ensures var ops := [Record(e), RunClosing([e], creditor)];
      && LegalRun(c, ops) && Origins(ops) == map[e.id := e]
      && Run(c, ops) == CloseOne(c, State(map[e.id := e], map[], []), e, creditor(0))
  {
    var none: seq<Op> := [];
    RunAppend(c, none, Record(e));
    RunAppend(c, none + [Record(e)], RunClosing([e], creditor));
    assert none + [Record(e)] + [RunClosing([e], creditor)] == [Record(e), RunClosing([e], creditor)];
    var s := State(map[e.id := e], map[], []);
    assert Run(c, none + [Record(e)]) == s;
    assert [e.id][0] == e.id;
    assert ClosingIds(s, [e], [e.id]);
    assert CloseBatch(c, s, [e], creditor, 0) == s;
  }

  /** Failing input for the counter: with a maximum of one the entry of a raising call is
      failed, and the job reports no failed entry. */
  lemma FailedUncounted()
    ensures var c, creditor := Config(10, 1, 15, 2, 1), (k: nat) => Answer(Some("error"), 0);
      var e := Entry("b", "u", 1, 0, Pending, None, None, None);
      var ops := [Record(e), RunClosing([e], creditor)];
      && LegalRun(c, ops)
      && FailedEntries(Run(c, ops), [e], 1) == 1
  {
    var c, creditor := Config(10, 1, 15, 2, 1), (k: nat) => Answer(Some("error"), 0);
    var e := Entry("b", "u", 1, 0, Pending, None, None, None);
    RecordedAndClosed(c, e, creditor);
    var s' := Run(c, [Record(e), RunClosing([e], creditor)]);
    assert FailedEntries(s', [e], 0) == 0;
  }

  /** An entry recorded with a count of minus one sees two attempts with a maximum of one. */
  lemma NegativeCountExceeds()
    ensures var c, creditor := Config(0, 1, 15, 2, 1), (k: nat) => Answer(Some("error"), 0);
      var e := Entry("b", "u", 1, 0, Pending, Some(-1), None, None);
      var q := QueueRecord(QueueId("b"), "b", 0, 0, Waiting, Some("error"));
      var ops := [Record(e), RunClosing([e], creditor), Process(0, 1, [q], creditor)];
      LegalRun(c, ops) && Attempts(Run(c, ops).calls, "b") == 2
  {
    var c, creditor := Config(0, 1, 15, 2, 1), (k: nat) => Answer(Some("error"), 0);
    var e := Entry("b", "u", 1, 0, Pending, Some(-1), None, None);
    var q := QueueRecord(QueueId("b"), "b", 0, 0, Waiting, Some("error"));
    var ops := [Record(e), RunClosing([e], creditor)];
    RecordedAndClosed(c, e, creditor);
    RunAppend(c, ops, Process(0, 1, [q], creditor));
    assert ops + [Process(0, 1, [q], creditor)] == [Record(e), RunClosing([e], creditor), Process(0, 1, [q], creditor)];
    RetriedAgain(c, Run(c, ops), q, creditor);
  }

  lemma RetriedAgain(c: Config, s: State, q: QueueRecord, creditor: Creditor)
    requires s.queue == map[q.id := q] && q.status == Waiting && q.retryAfter <= 0 && q.bonusId in s.entries
    requires s.entries[q.bonusId].id == q.bonusId && |s.calls| == 1 && s.calls[0].bonusId == q.bonusId
    ensures Legal(s, Process(0, 1, [q], creditor))
    ensures Attempts(Step(c, s, Process(0, 1, [q], creditor)).calls, q.bonusId) == 2
  {
    OnlyOneDue(s, q);
    assert RetryBatch(c, s, [q], creditor, 0).0 == s;
    var s' := RetryBatch(c, s, [q], creditor, 1).0;
    assert s' == RetryOne(c, s, q, creditor(0)).0;
    CalledTwice(s.calls, s'.calls, q.bonusId);
  }

  lemma OnlyOneDue(s: State, q: QueueRecord)
    requires s.queue == map[q.id := q] && q.status == Waiting && q.retryAfter <= 0
    ensures DueBatch(s, 0, 1, [q])
  {
    assert DueRecords(s, 0) == {q.id} && [q.id][0] == q.id;
    assert DueIds(s, 0, 1, [q], [q.id]);
  }

  lemma CalledTwice(calls: seq<Call>, calls': seq<Call>, b: string)
    requires |calls| == 1 && |calls'| == 2 && calls'[0] == calls[0] && calls[0].bonusId == b && calls'[1].bonusId == b
    ensures Attempts(calls', b) == 2
  {
    assert calls' == calls + [calls'[1]] && calls == [] + [calls[0]];
    CallAppended(calls, calls'[1], b);
    CallAppended([], calls[0], b);
  }
}
