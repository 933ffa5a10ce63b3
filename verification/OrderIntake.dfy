/** The order service on the real bonus pipeline: what its pipeline calls are, and when an
    order records exactly the bonuses it returns. */
module OrderIntake {
  import opened Wrappers
  import opened OrganizationStore
  import opened BonusDistribution
  import Retry
  import BonusLaws
  import Commerce
  import Organization

  function AttemptOf(b: Batch): Commerce.Attempt {
    match b
    case Complete(records) => Commerce.Done(records)
    case Aborted(records) => Commerce.Fault(records, true)
  }

  /** The first id of call k when every earlier call used up the given number of ids. */
  function IdAt(id: nat, used: nat, k: nat): nat {
    if k <= 1 then id else IdAt(id, used, k - 1) + used
  }

  predicate Bounded(unilevel: Option<seq<Node>>, binary: Option<seq<Node>>) {
    && (unilevel.Some? ==> |unilevel.value| <= |RECOMMEND|)
    && (binary.Some? ==> |binary.value| <= |SPONSOR|)
  }

  /** The next id before attempt k. */
  function IdOf(unilevel: Option<seq<Node>>, binary: Option<seq<Node>>, rates: Rates, event: Event, id: nat, k: nat): nat
    requires Bounded(unilevel, binary)
  {
    IdAt(id, |ProcessWith(unilevel, binary, rates, event, id).records|, k)
  }

  /** The k-th call of the pipeline for a buyer with these uplines. */
  function CallNumber(unilevel: Option<seq<Node>>, binary: Option<seq<Node>>, rates: Rates, event: Event, id: nat, k: nat): Commerce.Attempt
    requires Bounded(unilevel, binary)
  {
    AttemptOf(ProcessWith(unilevel, binary, rates, event, IdOf(unilevel, binary, rates, event, id, k)))
  }

  function PipelineCalls(unilevel: Option<seq<Node>>, binary: Option<seq<Node>>, rates: Rates, event: Event, id: nat): Commerce.Calls
    requires Bounded(unilevel, binary)
  {
    (k: nat) => CallNumber(unilevel, binary, rates, event, id, k)
  }

  lemma {:induction false} LevelsLength(kind: Kind, percentages: seq<real>, upline: seq<Node>, event: Event, id: nat, other: nat, n: nat)
    requires n <= |upline| && n <= |percentages|
    ensures |LevelBonuses(kind, percentages, upline, event, id, n)| == |LevelBonuses(kind, percentages, upline, event, other, n)|
  {
    if n > 0 {
      LevelsLength(kind, percentages, upline, event, id, other, n - 1);
    }
  }

  /** An aborted call aborts again whatever the next id, and records as much as before. */
  lemma AbortsAgain(unilevel: Option<seq<Node>>, binary: Option<seq<Node>>, rates: Rates, event: Event, id: nat, other: nat)
    requires Bounded(unilevel, binary) && ProcessWith(unilevel, binary, rates, event, id).Aborted?
    ensures ProcessWith(unilevel, binary, rates, event, other).Aborted?
    ensures |ProcessWith(unilevel, binary, rates, event, other).records| == |ProcessWith(unilevel, binary, rates, event, id).records|
  {
    if unilevel.Some? {
      LevelsLength(Recommend, RECOMMEND, unilevel.value, event, id, other, |unilevel.value|);
    }
  }

  /** The buyer has unilevel ancestors but no place in the binary tree. */
  predicate HalfRegistered(unilevel: Option<seq<Node>>, binary: Option<seq<Node>>) {
    unilevel.Some? && unilevel.value != [] && binary.None?
  }

  lemma {:induction false} RecommendLength(upline: seq<Node>, event: Event, id: nat, n: nat)
    requires n <= |upline| && n <= |RECOMMEND|
    ensures |LevelBonuses(Recommend, RECOMMEND, upline, event, id, n)| == n
  {
    if n > 0 {
      RecommendLength(upline, event, id, n - 1);
      assert RECOMMEND[n - 1] > 0.0;
    }
  }

  /** Every failing pipeline call records nothing if and only if the buyer is not half registered. */
  lemma FaultsCleanIff(unilevel: Option<seq<Node>>, binary: Option<seq<Node>>, rates: Rates, event: Event, id: nat,
                       payload: Commerce.Payload, storeOk: bool)
    requires Bounded(unilevel, binary)
    ensures Commerce.CleanFaults(Commerce.Op(payload, storeOk, PipelineCalls(unilevel, binary, rates, event, id)))
       <==> !HalfRegistered(unilevel, binary)
  {
    var op := Commerce.Op(payload, storeOk, PipelineCalls(unilevel, binary, rates, event, id));
    forall k: nat ensures op.call(k).Fault? ==> |op.call(k).records| == if unilevel.Some? then |unilevel.value| else 0 {
      if unilevel.Some? {
        RecommendLength(unilevel.value, event, IdOf(unilevel, binary, rates, event, id, k), |unilevel.value|);
      }
    }
    assert op.call(1).Fault? <==> unilevel.None? || binary.None?;
  }

  lemma HalfCall(unilevel: Option<seq<Node>>, binary: Option<seq<Node>>, rates: Rates, event: Event, id: nat, k: nat)
    requires Bounded(unilevel, binary) && HalfRegistered(unilevel, binary)
    ensures var a := CallNumber(unilevel, binary, rates, event, id, k);
      a.Fault? && a.valueError && |a.records| == |unilevel.value|
  {
    RecommendLength(unilevel.value, event, IdOf(unilevel, binary, rates, event, id, k), |unilevel.value|);
  }

  /** A half registered buyer's order is accepted with no bonuses, while every attempt leaves
      its recommend bonuses behind: attempts times the number of unilevel ancestors paid. */
  lemma HalfRegisteredOrder(c: Commerce.Config, s: Commerce.State, payload: Commerce.Payload,
                            unilevel: Option<seq<Node>>, binary: Option<seq<Node>>, rates: Rates, id: nat)
    requires Bounded(unilevel, binary) && HalfRegistered(unilevel, binary)
    requires c.pipeline.Some? && c.pipeline.value >= 1
    requires Commerce.Executes(c, s, Commerce.Op(payload, true, PipelineCalls(unilevel, binary, rates, payload.content.event, id)))
    ensures var op := Commerce.Op(payload, true, PipelineCalls(unilevel, binary, rates, payload.content.event, id));
      var (s', r) := Commerce.Step(c, s, op);
      && r == Success(Commerce.Created(payload.content, []))
      && |Commerce.Gain(s, s')| == Times(c.pipeline.value, |unilevel.value|)
      && Commerce.Gain(s, s') != []
  {
    var op := Commerce.Op(payload, true, PipelineCalls(unilevel, binary, rates, payload.content.event, id));
    var attempts := c.pipeline.value;
    forall k: nat ensures op.call(k).Fault? && op.call(k).valueError && |op.call(k).records| == |unilevel.value| {
      HalfCall(unilevel, binary, rates, payload.content.event, id, k);
    }
    Retry.RunMeaning(Commerce.Results(op.call), attempts);
    RecordedLength(op.call, |unilevel.value|, attempts);
  }

  function Times(n: nat, m: nat): nat {
    if n == 0 then 0 else Times(n - 1, m) + m
  }

  lemma {:induction false} RecordedLength(call: Commerce.Calls, m: nat, n: nat)
    requires m > 0 && forall k: nat :: |call(k).records| == m
    ensures |Commerce.RecordedBy(call, n)| == Times(n, m) && (n > 0 ==> Times(n, m) > 0)
  {
    if n > 0 {
      RecordedLength(call, m, n - 1);
    }
  }

  // --------------------------------------------------------------------- runs

  /** A call of the service on the real pipeline, whatever the organisation store and the
      pipeline's next id are at that moment. */
  datatype RealOp = RealOp(payload: Commerce.Payload, storeOk: bool, organizations: Store, nextId: nat)

  function UnilevelOf(op: RealOp): (upline: Option<seq<Node>>)
    ensures upline.Some? ==> |upline.value| <= |RECOMMEND|
  {
    Upline(op.organizations, Unilevel, op.payload.content.event.userId, |RECOMMEND|)
  }

  function BinaryOf(op: RealOp): (upline: Option<seq<Node>>)
    ensures upline.Some? ==> |upline.value| <= |SPONSOR|
  {
    Upline(op.organizations, Binary, op.payload.content.event.userId, |SPONSOR|)
  }

  function OpOf(rates: Rates, op: RealOp): Commerce.Op {
    Commerce.Op(op.payload, op.storeOk, PipelineCalls(UnilevelOf(op), BinaryOf(op), rates, op.payload.content.event, op.nextId))
  }

  function OpsOf(rates: Rates, ops: seq<RealOp>): (all: seq<Commerce.Op>)
    ensures |all| == |ops| && forall i :: 0 <= i < |ops| ==> all[i] == OpOf(rates, ops[i])
  {
    seq(|ops|, i requires 0 <= i < |ops| => OpOf(rates, ops[i]))
  }

  predicate HalfRegisteredBuyer(op: RealOp) { HalfRegistered(UnilevelOf(op), BinaryOf(op)) }

  /** A call that executes records exactly the bonuses it returns if and only if its buyer is
      not half registered. */
  lemma RecordsWhatItReturnsIff(c: Commerce.Config, s: Commerce.State, rates: Rates, op: RealOp)
    requires c.pipeline.Some? && c.pipeline.value >= 1 && op.storeOk && Commerce.Executes(c, s, OpOf(rates, op))
    ensures var (s', r) := Commerce.Step(c, s, OpOf(rates, op));
      && r.Success? && r.value.Created?
      && (Commerce.Gain(s, s') == r.value.bonuses <==> !HalfRegisteredBuyer(op))
  {
    var event := op.payload.content.event;
    FaultsCleanIff(UnilevelOf(op), BinaryOf(op), rates, event, op.nextId, op.payload, op.storeOk);
    AllFaultsAreValueErrors(rates, op, c.pipeline.value);
    Commerce.OutcomeExact(c, s, OpOf(rates, op));
    if HalfRegisteredBuyer(op) {
      HalfRegisteredOrder(c, s, op.payload, UnilevelOf(op), BinaryOf(op), rates, op.nextId);
    } else {
      Commerce.CleanStepGain(c, s, OpOf(rates, op));
    }
  }

  /** Such a buyer exists: "b", who joined below "a" in the unilevel tree and nowhere else. */
  function UnilevelOnly(): seq<Organization.Op> {
    [Organization.CreateRoot(Unilevel, "a", "1"), Organization.AddMember(Unilevel, "b", "a", "2")]
  }

  lemma UnilevelOnlyStore() returns (s: Store)
    ensures s == Organization.Run(UnilevelOnly()) && Inv(s)
    ensures (Binary, "b") !in s.byUser && (Unilevel, "b") in s.byUser && s.byUser[(Unilevel, "b")] == "2"
    ensures "2" in s.nodes && s.nodes["2"].depth == 1
  {
    var root, member := Organization.CreateRoot(Unilevel, "a", "1"), Organization.AddMember(Unilevel, "b", "a", "2");
    var s0 := OrganizationStore.EMPTY;
    Organization.EmptyInv();
    Organization.StepKeeps(s0, root);
    var s1 := Organization.Step(s0, root).0;
    Organization.StepKeeps(s1, member);
    s := Organization.Step(s1, member).0;
    var none: seq<Organization.Op> := [];
    assert (none + [root])[..0] == none && UnilevelOnly()[..1] == none + [root];
    assert Organization.Run(none) == s0;
    assert Organization.Run(none + [root]) == s1;
  }

  /** That buyer's first order: accepted without bonuses, while each of the allowed attempts
      records a recommend bonus for "a". */
  lemma HalfRegisteredExample(c: Commerce.Config, rates: Rates, payload: Commerce.Payload, nextId: nat)
    requires payload.content.event.userId == "b" && c.pipeline.Some? && c.pipeline.value >= 1
    ensures var op := RealOp(payload, true, Organization.Run(UnilevelOnly()), nextId);
      var (s', r) := Commerce.Step(c, Commerce.EMPTY, OpOf(rates, op));
      && HalfRegisteredBuyer(op)
      && r == Success(Commerce.Created(payload.content, []))
      && |s'.recorded| == c.pipeline.value
  {
    var s := UnilevelOnlyStore();
    var op := RealOp(payload, true, s, nextId);
    BonusLaws.AncestorsCollected(s, "2", |RECOMMEND|);
    assert |RECOMMEND| == 10;
    assert |UnilevelOf(op).value| == 1 && BinaryOf(op).None?;
    HalfRegisteredOrder(c, Commerce.EMPTY, payload, UnilevelOf(op), BinaryOf(op), rates, nextId);
    TimesOne(c.pipeline.value);
  }

  lemma {:induction false} TimesOne(n: nat)
    ensures Times(n, 1) == n
  {
    if n > 0 {
      TimesOne(n - 1);
    }
  }

  lemma AllFaultsAreValueErrors(rates: Rates, op: RealOp, k: nat)
    ensures OpOf(rates, op).call(k).Fault? ==> OpOf(rates, op).call(k).valueError
  {
  }

  /** At most one batch on the real pipeline: for one key whose calls name an order id and a
      buyer that is not half registered, at most one call of the whole run records anything,
      retries included, and it records the batch it returned - however the organisation
      grows in between. */
  lemma OneBatchOnRealPipeline(c: Commerce.Config, rates: Rates, ops: seq<RealOp>, k: (string, string), i: nat, j: nat)
    requires i < |ops| && j < |ops| && i != j
    requires forall n {:trigger ops[n]} :: 0 <= n < |ops| && Commerce.KeyOf(c, ops[n].payload) == k ==>
               ops[n].payload.content.event.orderId != "" && !HalfRegisteredBuyer(ops[n])
    requires Commerce.KeyOf(c, ops[i].payload) == k && Commerce.KeyOf(c, ops[j].payload) == k
    ensures var all := OpsOf(rates, ops);
      && (Commerce.RecordedAt(c, all, i) == [] || Commerce.RecordedAt(c, all, j) == [])
      && var r := Commerce.Step(c, Commerce.Run(c, all[..i]), all[i]).1;
         Commerce.RecordedAt(c, all, i) == if r.Success? && r.value.Created? then r.value.bonuses else []
  {
    var all := OpsOf(rates, ops);
    forall n | 0 <= n < |all| && Commerce.KeyOf(c, all[n].payload) == k
      ensures all[n].payload.content.event.orderId != "" && Commerce.CleanFaults(all[n])
    {
      var op := ops[n];
      FaultsCleanIff(UnilevelOf(op), BinaryOf(op), rates, op.payload.content.event, op.nextId, op.payload, op.storeOk);
    }
    Commerce.OneBatchPerKey(c, all, k, i, j);
  }

  /** Before attempt k of the retried calls: all that was recorded, and that k decides. */
  ghost predicate Tried(call: Commerce.Calls, attempts: int, start: seq<Bonus>, now: seq<Bonus>, k: int) {
    && 1 <= k <= attempts
    && now == start + Commerce.RecordedBy(call, k - 1)
    && Retry.Run(Commerce.Results(call), attempts) == Retry.From(Commerce.Results(call), k, attempts)
  }

  lemma RecordedOnce(call: Commerce.Calls, start: seq<Bonus>, before: seq<Bonus>, after: seq<Bonus>, k: nat)
    requires k >= 1 && before == start + Commerce.RecordedBy(call, k - 1) && after == before + call(k).records
    ensures after == start + Commerce.RecordedBy(call, k)
  {
  }

  lemma DecidedOnce(result: nat -> Result<seq<Bonus>, bool>, attempts: int, k: nat)
    requires 1 <= k <= attempts
    ensures Retry.From(result, k, attempts) ==
      if result(k).Success? then Retry.Returned(result(k).value, k)
      else if k == attempts then Retry.Raised(result(k).error, k)
      else Retry.From(result, k + 1, attempts)
  {
  }

  lemma TriedNext(call: Commerce.Calls, attempts: int, start: seq<Bonus>, before: seq<Bonus>, after: seq<Bonus>, k: nat)
    requires Tried(call, attempts, start, before, k) && after == before + call(k).records
    requires k < attempts && Commerce.Results(call)(k).Failure?
    ensures Tried(call, attempts, start, after, k + 1)
  {
    RecordedOnce(call, start, before, after, k);
    DecidedOnce(Commerce.Results(call), attempts, k);
  }

  /** The attempt that ends the loop. */
  lemma TriedLast(call: Commerce.Calls, attempts: int, start: seq<Bonus>, before: seq<Bonus>, after: seq<Bonus>, k: nat)
    requires Tried(call, attempts, start, before, k) && after == before + call(k).records
    requires k == attempts || Commerce.Results(call)(k).Success?
    ensures var result, outcome := Commerce.Results(call)(k), Retry.Run(Commerce.Results(call), attempts);
      && outcome == (if result.Success? then Retry.Returned(result.value, k) else Retry.Raised(result.error, k))
      && after == start + Commerce.RecordedBy(call, Commerce.Tries(outcome))
  {
    RecordedOnce(call, start, before, after, k);
    DecidedOnce(Commerce.Results(call), attempts, k);
  }

  lemma NextId(unilevel: Option<seq<Node>>, binary: Option<seq<Node>>, rates: Rates, event: Event, id: nat, k: nat)
    requires Bounded(unilevel, binary) && k >= 1
    ensures var batch := ProcessWith(unilevel, binary, rates, event, IdOf(unilevel, binary, rates, event, id, k));
      batch.Aborted? ==> IdOf(unilevel, binary, rates, event, id, k + 1) == IdOf(unilevel, binary, rates, event, id, k) + |batch.records|
  {
    var at := IdOf(unilevel, binary, rates, event, id, k);
    if ProcessWith(unilevel, binary, rates, event, at).Aborted? {
      AbortsAgain(unilevel, binary, rates, event, at, id);
    }
  }

  // ------------------------------------------------------------------ service

  class AegmallOrderService {
    const scope: string
    const attempts: int
    const pipeline: BonusPipeline?
    var keys: map<(string, string), Commerce.KeyRecord>
    var orders: map<string, Commerce.Content>

    constructor (scope: string, attempts: int, pipeline: BonusPipeline?)
      ensures this.scope == scope && this.attempts == attempts && this.pipeline == pipeline
      ensures keys == map[] && orders == map[]
    {
      this.scope, this.attempts, this.pipeline := scope, attempts, pipeline;
      keys, orders := map[], map[];
    }

    ghost function Settings(): Commerce.Config {
      Commerce.Config(scope, if pipeline == null then None else Some(attempts))
    }

    ghost function Parts(): set<object> { {this} + if pipeline == null then {} else {pipeline} }

    ghost function View(): Commerce.State
      reads Parts()
    {
      Commerce.State(keys, orders, if pipeline == null then [] else pipeline.recorded)
    }

    ghost function Calls(event: Event): Commerce.Calls
      reads Parts(), if pipeline == null then {} else {pipeline.organizations}
    {
      if pipeline == null then (k: nat) => Commerce.Done([])
      else
        PipelineCalls(Upline(pipeline.organizations.View(), Unilevel, event.userId, |RECOMMEND|),
                      Upline(pipeline.organizations.View(), Binary, event.userId, |SPONSOR|),
                      pipeline.rates, event, pipeline.nextId)
    }

    method MarkStatus(k: (string, string), status: Commerce.KeyStatus, resource: Option<string>)
      modifies this`keys
      ensures View() == Commerce.Mark(old(View()), k, status, resource)
    {
      if k in keys {
        var record := keys[k].(status := status);
        if resource.Some? {
          record := record.(resource := resource);
        }
        keys := keys[k := record];
      }
    }

    /** storeOk tells whether the order store accepts the order. */
    method ProcessOrder(p: Commerce.Payload, storeOk: bool) returns (r: Result<Commerce.Intake, Commerce.IntakeError>)
      modifies Parts()
      ensures (View(), r) == Commerce.IntakeSpec(Settings(), old(View()), p, storeOk, old(Calls(p.content.event)))
    {
      var k := (scope + ":" + p.content.event.userId, p.key);
      if k !in keys {
        keys := keys[k := Commerce.KeyRecord(p.content, Commerce.Pending, None)];
      } else {
        var existing := keys[k];
        if existing.content != p.content {
          return Failure(Commerce.Conflict);
        }
        if existing.status == Commerce.Succeeded && existing.resource.Some? && existing.resource.value != "" {
          if existing.resource.value !in orders {
            return Failure(Commerce.InProgress);
          }
          return Success(Commerce.Duplicate(orders[existing.resource.value]));
        }
        MarkStatus(k, Commerce.Pending, None);
      }
      r := Execute(k, p, storeOk);
    }

    method Execute(k: (string, string), p: Commerce.Payload, storeOk: bool) returns (r: Result<Commerce.Intake, Commerce.IntakeError>)
      requires k == Commerce.KeyOf(Settings(), p)
      modifies Parts()
      ensures (View(), r) == Commerce.ExecuteSpec(Settings(), old(View()), p, storeOk, old(Calls(p.content.event)))
    {
      if !storeOk {
        MarkStatus(k, Commerce.Failed, None);
        return Failure(Commerce.Crashed);
      }
      orders := orders[p.content.event.orderId := p.content];
      var bonuses: seq<Bonus> := [];
      if pipeline != null {
        var outcome := RunPipeline(p.content.event);
        match outcome
        case Returned(value, _) => bonuses := value;
        case Raised(valueError, _) =>
          if !valueError {
            MarkStatus(k, Commerce.Failed, None);
            return Failure(Commerce.Crashed);
          }
        case NoAttempts =>
          MarkStatus(k, Commerce.Failed, None);
          return Failure(Commerce.Crashed);
      }
      MarkStatus(k, Commerce.Succeeded, Some(p.content.event.orderId));
      r := Success(Commerce.Created(p.content, bonuses));
    }

    /** The pipeline under the retry wrapper. */
    method RunPipeline(event: Event) returns (outcome: Retry.Outcome<seq<Bonus>, bool>)
      requires pipeline != null
      modifies pipeline
      ensures outcome == Retry.Run(Commerce.Results(old(Calls(event))), attempts)
      ensures pipeline.recorded == old(pipeline.recorded) + Commerce.RecordedBy(old(Calls(event)), Commerce.Tries(outcome))
    {
      var unilevel := pipeline.FindUpline(Unilevel, event.userId, |RECOMMEND|);
      var binary := pipeline.FindUpline(Binary, event.userId, |SPONSOR|);
      outcome := RetryUplines(unilevel, binary, event);
    }

    method RetryUplines(unilevel: Option<seq<Node>>, binary: Option<seq<Node>>, event: Event)
      returns (outcome: Retry.Outcome<seq<Bonus>, bool>)
      requires pipeline != null && Bounded(unilevel, binary)
      modifies pipeline
      ensures var call := PipelineCalls(unilevel, binary, pipeline.rates, event, old(pipeline.nextId));
        && outcome == Retry.Run(Commerce.Results(call), attempts)
        && pipeline.recorded == old(pipeline.recorded) + Commerce.RecordedBy(call, Commerce.Tries(outcome))
    {
      ghost var id, start := pipeline.nextId, pipeline.recorded;
      ghost var call := PipelineCalls(unilevel, binary, pipeline.rates, event, id);
      var attempt := 1;
      while attempt <= attempts
        invariant if attempts >= 1 then Tried(call, attempts, start, pipeline.recorded, attempt) else attempt == 1 && pipeline.recorded == start
        invariant pipeline.nextId == IdOf(unilevel, binary, pipeline.rates, event, id, attempt)
      {
        ghost var before := pipeline.recorded;
        var result := TryOnce(unilevel, binary, event, id, attempt);
        if result.Success? {
          TriedLast(call, attempts, start, before, pipeline.recorded, attempt);
          return Retry.Returned(result.value, attempt);
        }
        if attempt == attempts {
          TriedLast(call, attempts, start, before, pipeline.recorded, attempt);
          return Retry.Raised(true, attempt);
        }
        TriedNext(call, attempts, start, before, pipeline.recorded, attempt);
        attempt := attempt + 1;
      }
      outcome := Retry.NoAttempts;
    }

    /** Attempt number k of an order whose first attempt started with the given id. */
    method TryOnce(unilevel: Option<seq<Node>>, binary: Option<seq<Node>>, event: Event, ghost id: nat, ghost k: nat)
      returns (result: Result<seq<Bonus>, ()>)
      requires pipeline != null && Bounded(unilevel, binary) && k >= 1
      requires pipeline.nextId == IdOf(unilevel, binary, pipeline.rates, event, id, k)
      modifies pipeline
      ensures var call := PipelineCalls(unilevel, binary, pipeline.rates, event, id);
        && pipeline.recorded == old(pipeline.recorded) + call(k).records
        && Commerce.Results(call)(k) == if result.Success? then Success(result.value) else Failure(true)
      ensures result.Failure? ==> pipeline.nextId == IdOf(unilevel, binary, pipeline.rates, event, id, k + 1)
    {
      NextId(unilevel, binary, pipeline.rates, event, id, k);
      result := pipeline.ProcessUplines(unilevel, binary, event);
    }
  }
}
