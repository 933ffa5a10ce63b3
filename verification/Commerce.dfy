/** Intake of shop orders under an idempotency key.

    What the bonus pipeline does on its k-th call is a parameter, call(k): it returns a
    batch or raises, and in both cases has recorded some bonuses.  OrderIntake runs the
    service on the real pipeline.  The payload hash is taken to be injective, so it is the
    payload's content itself. */
module Commerce {
  import opened Wrappers
  import opened BonusDistribution
  import Retry

  /** amounts are pv and total as written, and metadata is all of it; both are hashed. */
  datatype Content = Content(event: Event, channel: string, amounts: (string, string), metadata: map<string, string>)

  datatype Payload = Payload(content: Content, key: string)

  datatype KeyStatus = Pending | Succeeded | Failed

  datatype KeyRecord = KeyRecord(content: Content, status: KeyStatus, resource: Option<string>)

  datatype State = State(keys: map<(string, string), KeyRecord>, orders: map<string, Content>, recorded: seq<Bonus>)

  const EMPTY := State(map[], map[], [])

  datatype Attempt = Done(records: seq<Bonus>) | Fault(records: seq<Bonus>, valueError: bool)

  type Calls = nat -> Attempt

  datatype IntakeError = Conflict | InProgress | Crashed

  datatype Intake = Created(order: Content, bonuses: seq<Bonus>) | Duplicate(order: Content)

  /** pipeline is None without one, and otherwise its retry attempts. */
  datatype Config = Config(scope: string, pipeline: Option<int>)

  function ResultOf(a: Attempt): Result<seq<Bonus>, bool> {
    match a
    case Done(records) => Success(records)
    case Fault(_, valueError) => Failure(valueError)
  }

  function Results(call: Calls): nat -> Result<seq<Bonus>, bool> { (k: nat) => ResultOf(call(k)) }

  /** Everything the first n calls record. */
  function RecordedBy(call: Calls, n: nat): seq<Bonus> {
    if n == 0 then [] else RecordedBy(call, n - 1) + call(n).records
  }

  function KeyOf(c: Config, p: Payload): (string, string) { (c.scope + ":" + p.content.event.userId, p.key) }

  function Mark(s: State, k: (string, string), status: KeyStatus, resource: Option<string>): State {
    if k !in s.keys then s
    else
      s.(keys := s.keys[k := s.keys[k].(status := status, resource := if resource.Some? then resource else s.keys[k].resource)])
  }

  function Tries(r: Retry.Outcome<seq<Bonus>, bool>): nat {
    match r
    case Returned(_, tries) => tries
    case Raised(_, tries) => tries
    case NoAttempts => 0
  }

  /** The order is stored, the pipeline runs with retries, and the key is marked; a
      ValueError of the pipeline counts as no bonuses. */
  function ExecuteSpec(c: Config, s: State, p: Payload, storeOk: bool, call: Calls): (State, Result<Intake, IntakeError>) {
    var k := KeyOf(c, p);
    if !storeOk then (Mark(s, k, Failed, None), Failure(Crashed))
    else
      var s1 := s.(orders := s.orders[p.content.event.orderId := p.content]);
      var resource := Some(p.content.event.orderId);
      if c.pipeline.None? then (Mark(s1, k, Succeeded, resource), Success(Created(p.content, [])))
      else
        var outcome := Retry.Run(Results(call), c.pipeline.value);
        var s2 := s1.(recorded := s1.recorded + RecordedBy(call, Tries(outcome)));
        match outcome
        case Returned(bonuses, _) => (Mark(s2, k, Succeeded, resource), Success(Created(p.content, bonuses)))
        case Raised(valueError, _) =>
          if valueError then (Mark(s2, k, Succeeded, resource), Success(Created(p.content, [])))
          else (Mark(s2, k, Failed, None), Failure(Crashed))
        case NoAttempts => (Mark(s2, k, Failed, None), Failure(Crashed))
  }

  function IntakeSpec(c: Config, s: State, p: Payload, storeOk: bool, call: Calls): (State, Result<Intake, IntakeError>) {
    var k := KeyOf(c, p);
    if k !in s.keys then ExecuteSpec(c, s.(keys := s.keys[k := KeyRecord(p.content, Pending, None)]), p, storeOk, call)
    else
      var existing := s.keys[k];
      if existing.content != p.content then (s, Failure(Conflict))
      else if existing.status == Succeeded && existing.resource.Some? && existing.resource.value != "" then
        if existing.resource.value in s.orders then (s, Success(Duplicate(s.orders[existing.resource.value])))
        else (s, Failure(InProgress))
      else ExecuteSpec(c, Mark(s, k, Pending, None), p, storeOk, call)
  }

  // --------------------------------------------------------------------- runs

  datatype Op = Op(payload: Payload, storeOk: bool, call: Calls)

  function Step(c: Config, s: State, op: Op): (State, Result<Intake, IntakeError>) {
    IntakeSpec(c, s, op.payload, op.storeOk, op.call)
  }

  ghost function Run(c: Config, ops: seq<Op>): State {
    if |ops| == 0 then EMPTY else Step(c, Run(c, ops[..|ops| - 1]), ops[|ops| - 1]).0
  }

  // --------------------------------------------------------------------- laws

  lemma PrefixedApart(prefix: string, a: string, b: string)
    ensures prefix + a == prefix + b ==> a == b
  {
    if prefix + a == prefix + b {
      assert a == (prefix + a)[|prefix|..] && b == (prefix + b)[|prefix|..];
    }
  }

  /** The record of a user's idempotency key is found under the user's scope and that key, so
      a call leaves the records of every other user alone, and of every other key. */
  lemma UsersApart(c: Config, s: State, op: Op, user: string, key: string)
    requires user != op.payload.content.event.userId || key != op.payload.key
    ensures var k, s' := (c.scope + ":" + user, key), Step(c, s, op).0;
      (k in s'.keys <==> k in s.keys) && (k in s.keys ==> s'.keys[k] == s.keys[k])
    ensures KeyOf(c, op.payload) == (c.scope + ":" + op.payload.content.event.userId, op.payload.key)
  {
    PrefixedApart(c.scope + ":", user, op.payload.content.event.userId);
    StepLaws(c, s, op, (c.scope + ":" + user, key));
  }

  /** A key is settled once it succeeded with a non-empty order id. */
  predicate SettledKey(s: State, k: (string, string)) {
    k in s.keys && s.keys[k].status == Succeeded && s.keys[k].resource.Some? && s.keys[k].resource.value != ""
  }

  /** One call: no key loses its record or its content, settled keys stay as they are, keys
      other than the call's are untouched, and conflicts, duplicates and calls found in
      progress write nothing at all. */
  lemma StepLaws(c: Config, s: State, op: Op, k: (string, string))
    ensures var (s', r) := Step(c, s, op);
      && (k in s.keys ==> k in s'.keys && s'.keys[k].content == s.keys[k].content)
      && (SettledKey(s, k) ==> s'.keys[k] == s.keys[k])
      && (k != KeyOf(c, op.payload) ==> (k in s'.keys <==> k in s.keys) && (k in s.keys ==> s'.keys[k] == s.keys[k]))
      && (r == Failure(Conflict) || r == Failure(InProgress) || (r.Success? && r.value.Duplicate?) ==> s' == s)
      && (SettledKey(s, KeyOf(c, op.payload)) ==> s' == s)
  {
  }

  /** A record created or succeeded under a payload carries that payload's content, and its
      resource is the order id of that content. */
  ghost predicate KeyOk(s: State, k: (string, string)) {
    k in s.keys ==>
      && (s.keys[k].resource.Some? ==> s.keys[k].resource.value == s.keys[k].content.event.orderId)
      && (s.keys[k].status == Succeeded ==> s.keys[k].resource.Some? && s.keys[k].resource.value in s.orders)
  }

  lemma StepKeyOk(c: Config, s: State, op: Op, k: (string, string))
    requires KeyOk(s, k)
    ensures KeyOk(Step(c, s, op).0, k)
  {
    var s' := Step(c, s, op).0;
    StepLaws(c, s, op, k);
    StepOrders(c, s, op, s'.orders);
  }

  lemma {:induction false} KeysOk(c: Config, ops: seq<Op>, k: (string, string))
    ensures KeyOk(Run(c, ops), k)
  {
    if |ops| > 0 {
      KeysOk(c, ops[..|ops| - 1], k);
      StepKeyOk(c, Run(c, ops[..|ops| - 1]), ops[|ops| - 1], k);
    }
  }

  /** The call gets past its key: a new one, or one with the same content not yet settled. */
  predicate Executes(c: Config, s: State, op: Op) {
    var k := KeyOf(c, op.payload);
    k in s.keys ==> s.keys[k].content == op.payload.content && !SettledKey(s, k)
  }

  /** The pipeline is allowed no attempt, or raises something else than a ValueError on the
      last one it is allowed, having failed on all before. */
  ghost predicate PipelineCrashes(c: Config, op: Op) {
    && c.pipeline.Some?
    && var attempts := c.pipeline.value;
    && (attempts >= 1 ==> op.call(attempts).Fault? && !op.call(attempts).valueError)
    && forall k :: 1 <= k <= attempts ==> Results(op.call)(k).Failure?
  }

  /** Every answer is given exactly under its condition.  A created order leaves its key
      settled on it and is stored; a crash leaves the key marked failed. */
  lemma OutcomeExact(c: Config, s: State, op: Op)
    ensures var (s', r) := Step(c, s, op); var k := KeyOf(c, op.payload); var content := op.payload.content;
      && (r == Failure(Conflict) <==> k in s.keys && s.keys[k].content != content)
      && ((r.Success? && r.value.Duplicate?) || r == Failure(InProgress) <==> SettledKey(s, k) && s.keys[k].content == content)
      && (r == Failure(InProgress) <==>
            SettledKey(s, k) && s.keys[k].content == content && s.keys[k].resource.value !in s.orders)
      && (r == Failure(Crashed) <==> Executes(c, s, op) && (!op.storeOk || PipelineCrashes(c, op)))
      && ((r.Success? && r.value.Created?) <==> Executes(c, s, op) && op.storeOk && !PipelineCrashes(c, op))
      && (r.Success? && r.value.Created? ==>
            && s'.keys[k] == KeyRecord(content, Succeeded, Some(content.event.orderId))
            && s'.orders == s.orders[content.event.orderId := content])
      && (r == Failure(Crashed) ==> k in s'.keys && s'.keys[k].content == content && s'.keys[k].status == Failed)
  {
    if c.pipeline.Some? {
      Retry.RunMeaning(Results(op.call), c.pipeline.value);
      CrashMeaning(c, op);
    }
  }

  /** What a call that executes leaves, attempt by attempt: k is the attempt that decided, the
      first that returned or else the last allowed.  Everything the attempts recorded stays;
      what that attempt returned is answered, a ValueError counting as no bonuses; and the
      call's own record alone changes, keeping an order id it had when the call crashes. */
  lemma ExecutedExact(c: Config, s: State, op: Op, k: nat)
    requires Executes(c, s, op) && op.storeOk && c.pipeline.Some? && 1 <= k <= c.pipeline.value
    requires (forall j: nat {:trigger op.call(j)} :: 1 <= j < k ==> op.call(j).Fault?) && (op.call(k).Done? || k == c.pipeline.value)
    ensures var (s', r) := Step(c, s, op);
      var own, content, last := KeyOf(c, op.payload), op.payload.content, op.call(k);
      && s'.recorded == s.recorded + RecordedBy(op.call, k)
      && s'.orders == s.orders[content.event.orderId := content]
      && (if last.Done? then r == Success(Created(content, last.records))
          else if last.valueError then r == Success(Created(content, []))
          else r == Failure(Crashed))
      && s'.keys == s.keys[own := if r.Success? then KeyRecord(content, Succeeded, Some(content.event.orderId))
                                  else KeyRecord(content, Failed, if own in s.keys then s.keys[own].resource else None)]
  {
    var n := c.pipeline.value;
    DecidedAt(Results(op.call), 1, k, n);
    assert Retry.Run(Results(op.call), n) == Retry.From(Results(op.call), 1, n);
  }

  lemma {:induction false} DecidedAt(result: nat -> Result<seq<Bonus>, bool>, i: nat, k: nat, n: nat)
    requires 1 <= i <= k <= n && (forall j :: i <= j < k ==> result(j).Failure?) && (result(k).Success? || k == n)
    ensures Retry.From(result, i, n) == if result(k).Success? then Retry.Returned(result(k).value, k) else Retry.Raised(result(k).error, k)
    decreases k - i
  {
    if i < k {
      DecidedAt(result, i + 1, k, n);
    }
  }

  /** A call whose order the store refuses stores no order and records no bonus, and so does
      one without any allowed attempt except for its order. */
  lemma NothingExecuted(c: Config, s: State, op: Op)
    requires Executes(c, s, op) && (!op.storeOk || c.pipeline.None? || c.pipeline.value <= 0)
    ensures var (s', r) := Step(c, s, op);
      var own, content := KeyOf(c, op.payload), op.payload.content;
      && s'.recorded == s.recorded
      && s'.orders == (if op.storeOk then s.orders[content.event.orderId := content] else s.orders)
      && r == (if op.storeOk && c.pipeline.None? then Success(Created(content, [])) else Failure(Crashed))
      && s'.keys == s.keys[own := if r.Success? then KeyRecord(content, Succeeded, Some(content.event.orderId))
                                  else KeyRecord(content, Failed, if own in s.keys then s.keys[own].resource else None)]
  {
  }

  lemma CrashMeaning(c: Config, op: Op)
    requires c.pipeline.Some?
    ensures var outcome := Retry.Run(Results(op.call), c.pipeline.value);
      PipelineCrashes(c, op) <==> outcome.NoAttempts? || (outcome.Raised? && !outcome.error)
  {
    Retry.RunMeaning(Results(op.call), c.pipeline.value);
  }

  lemma StepOrders(c: Config, s: State, op: Op, orders: map<string, Content>)
    requires orders == Step(c, s, op).0.orders
    ensures orders == s.orders || orders == s.orders[op.payload.content.event.orderId := op.payload.content]
  {
  }

  lemma {:induction false} OrdersNamed(c: Config, ops: seq<Op>, orderId: string)
    ensures orderId in Run(c, ops).orders ==> Run(c, ops).orders[orderId].event.orderId == orderId
  {
    if |ops| > 0 {
      var before, op := Run(c, ops[..|ops| - 1]), ops[|ops| - 1];
      OrdersNamed(c, ops[..|ops| - 1], orderId);
      StepOrders(c, before, op, Run(c, ops).orders);
    }
  }

  /** After any run no call is answered as in progress, and a duplicate is answered with a
      stored order of the same order id. */
  lemma DuplicateFound(c: Config, ops: seq<Op>, op: Op)
    ensures var r := Step(c, Run(c, ops), op).1;
      && r != Failure(InProgress)
      && (r.Success? && r.value.Duplicate? ==> r.value.order.event.orderId == op.payload.content.event.orderId)
  {
    KeysOk(c, ops, KeyOf(c, op.payload));
    OrdersNamed(c, ops, op.payload.content.event.orderId);
  }

  /** What call number i of the run records. */
  ghost function RecordedAt(c: Config, ops: seq<Op>, i: nat): seq<Bonus>
    requires i < |ops|
  {
    Gain(Run(c, ops[..i]), Step(c, Run(c, ops[..i]), ops[i]).0)
  }

  function Gain(s: State, s': State): seq<Bonus> {
    if |s.recorded| <= |s'.recorded| then s'.recorded[|s.recorded|..] else []
  }

  /** The calls of this operation that raise record nothing. */
  ghost predicate CleanFaults(op: Op) {
    forall k: nat {:trigger op.call(k)} :: op.call(k).Fault? ==> op.call(k).records == []
  }

  lemma {:induction false} FaultsRecordNothing(op: Op, n: nat)
    requires CleanFaults(op) && forall j :: 1 <= j <= n ==> Results(op.call)(j).Failure?
    ensures RecordedBy(op.call, n) == []
  {
    if n > 0 {
      FaultsRecordNothing(op, n - 1);
      assert Results(op.call)(n).Failure?;
      assert op.call(n).Fault?;
    }
  }

  /** With faults that record nothing, a call records one batch, the one it returns, or nothing. */
  lemma CleanStepGain(c: Config, s: State, op: Op)
    requires CleanFaults(op)
    ensures var (s', r) := Step(c, s, op);
      Gain(s, s') == if r.Success? && r.value.Created? then r.value.bonuses else []
  {
    if c.pipeline.Some? && c.pipeline.value > 0 {
      var outcome := Retry.Run(Results(op.call), c.pipeline.value);
      Retry.RunMeaning(Results(op.call), c.pipeline.value);
      match outcome
      case Returned(bonuses, tries) =>
        FaultsRecordNothing(op, tries - 1);
        assert ResultOf(op.call(tries)) == Success(bonuses);
        assert RecordedBy(op.call, tries) == bonuses;
      case Raised(_, tries) => FaultsRecordNothing(op, tries);
    }
  }

  /** A call that returns a result leaves its key settled, if the order id is not empty. */
  lemma CreatedSettles(c: Config, s: State, op: Op)
    requires Step(c, s, op).1.Success? && Step(c, s, op).1.value.Created? && op.payload.content.event.orderId != ""
    ensures SettledKey(Step(c, s, op).0, KeyOf(c, op.payload))
  {
  }

  lemma {:induction false} SettledForever(c: Config, ops: seq<Op>, i: nat, k: (string, string))
    requires i <= |ops| && SettledKey(Run(c, ops[..i]), k)
    ensures SettledKey(Run(c, ops), k) && Run(c, ops).keys[k] == Run(c, ops[..i]).keys[k]
  {
    if i < |ops| {
      var before := ops[..|ops| - 1];
      assert before[..i] == ops[..i];
      SettledForever(c, before, i, k);
      StepLaws(c, Run(c, before), ops[|ops| - 1], k);
    } else {
      assert ops[..i] == ops;
    }
  }

  /** At most one batch: for one key and non-empty order ids, with faults that record
      nothing, at most one call of the whole run records anything, and what that call
      records is the one batch it returned. */
  lemma OneBatchPerKey(c: Config, ops: seq<Op>, k: (string, string), i: nat, j: nat)
    requires i < |ops| && j < |ops| && i != j
    requires forall n :: 0 <= n < |ops| && KeyOf(c, ops[n].payload) == k ==> ops[n].payload.content.event.orderId != "" && CleanFaults(ops[n])
    requires KeyOf(c, ops[i].payload) == k && KeyOf(c, ops[j].payload) == k
    ensures RecordedAt(c, ops, i) == [] || RecordedAt(c, ops, j) == []
    ensures var r := Step(c, Run(c, ops[..i]), ops[i]).1;
      RecordedAt(c, ops, i) == if r.Success? && r.value.Created? then r.value.bonuses else []
  {
    CleanStepGain(c, Run(c, ops[..i]), ops[i]);
    CleanStepGain(c, Run(c, ops[..j]), ops[j]);
    SecondRecordsNothing(c, ops, k, if i < j then i else j, if i < j then j else i);
  }

  lemma SecondRecordsNothing(c: Config, ops: seq<Op>, k: (string, string), i: nat, j: nat)
    requires i < j < |ops| && KeyOf(c, ops[i].payload) == k && KeyOf(c, ops[j].payload) == k
    requires ops[i].payload.content.event.orderId != "" && CleanFaults(ops[i])
    ensures RecordedAt(c, ops, i) == [] || RecordedAt(c, ops, j) == []
  {
    var s := Run(c, ops[..i]);
    CleanStepGain(c, s, ops[i]);
    if RecordedAt(c, ops, i) != [] {
      CreatedSettles(c, s, ops[i]);
      assert ops[..i + 1][..i] == ops[..i];
      assert ops[..j][..i + 1] == ops[..i + 1];
      SettledForever(c, ops[..j], i + 1, k);
      StepLaws(c, Run(c, ops[..j]), ops[j], k);
    }
  }

  /** The first attempt of the operation's pipeline returns some bonuses. */
  predicate Pays(op: Op) { op.call(1).Done? && op.call(1).records != [] }

  lemma PayingGain(c: Config, s: State, op: Op)
    requires Pays(op) && op.storeOk && c.pipeline.Some? && c.pipeline.value >= 1
    ensures var (s', r) := Step(c, s, op);
      Executes(c, s, op) ==> r == Success(Created(op.payload.content, op.call(1).records)) && Gain(s, s') == op.call(1).records
    ensures !Executes(c, s, op) ==> Gain(s, Step(c, s, op).0) == []
  {
    assert RecordedBy(op.call, 0) == [];
    assert RecordedBy(op.call, 1) == op.call(1).records;
  }

  /** A second batch: after a call that executed and paid, repeating its payload records
      bonuses again if and only if the order id is empty. */
  lemma RepeatPaysAgainIff(c: Config, s: State, op: Op, again: Op)
    requires Pays(op) && Pays(again) && op.storeOk && again.storeOk && again.payload == op.payload
    requires c.pipeline.Some? && c.pipeline.value >= 1 && Executes(c, s, op)
    ensures var s' := Step(c, s, op).0;
      Gain(s, s') != [] && (Gain(s', Step(c, s', again).0) != [] <==> op.payload.content.event.orderId == "")
  {
    PayingGain(c, s, op);
    var s' := Step(c, s, op).0;
    PayingGain(c, s', again);
    OutcomeExact(c, s, op);
    assert Executes(c, s', again) <==> op.payload.content.event.orderId == "";
  }

  /** After a call that returned a result, repeating the payload is recognised as a duplicate
      if and only if its order id is not empty. */
  lemma RepeatIsDuplicateIff(c: Config, s: State, op: Op, again: Op)
    requires Step(c, s, op).1.Success? && Step(c, s, op).1.value.Created? && again.payload == op.payload
    ensures var r := Step(c, Step(c, s, op).0, again).1;
      (r.Success? && r.value.Duplicate?) <==> op.payload.content.event.orderId != ""
  {
  }
}
