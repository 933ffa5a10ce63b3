/** The holds under the workflow: over every run, pending is exact as long as no failed
    execution met another open hold, and what becomes of risk screening once it is not. */
module WorkflowHolds {
  import opened Wrappers
  import opened PointWallet
  import opened PointWalletLaws
  import opened Mining
  import opened Workflow
  import opened WorkflowLaws
  import Retry
  import Risk

  /** The call, if the miner refuses what it approved, finds no other hold on that wallet. */
  ghost predicate CleanCall(c: Config, w: Flow, op: FlowOp) {
    op.FlowApprove? && ReachesCompletion(c, w, op) && EndingOfOp(c, w, op).Compensated?
    ==> Holds(w.wallet, w.wallet.requests[op.requestId].walletId) == w.wallet.requests[op.requestId].amount
  }

  ghost predicate CleanFlow(c: Config, ops: seq<FlowOp>) {
    |ops| > 0 ==> CleanFlow(c, ops[..|ops| - 1]) && CleanCall(c, FlowRun(c, ops[..|ops| - 1]), ops[|ops| - 1])
  }

  /** Pending is exact after every prefix of the run. */
  ghost predicate FlowExact(c: Config, ops: seq<FlowOp>) {
    PendingExact(FlowRun(c, ops).wallet) && (|ops| > 0 ==> FlowExact(c, ops[..|ops| - 1]))
  }

  lemma CompleteExact(c: Config, w: Flow, op: FlowOp)
    requires Inv(w.wallet) && PendingExact(w.wallet) && op.FlowApprove? && ReachesCompletion(c, w, op)
    requires !EndingOfOp(c, w, op).Compensated?
    ensures PendingExact(CompleteFlow(c, w, op.requestId, op.actor, op.notes, op.coin, op.reply).0.wallet)
  {
    var ending, s1 := EndingOfOp(c, w, op), ApproveSpec(w.wallet, op.requestId, op.actor, op.notes).0;
    CompleteEnds(c, w, op.requestId, op.actor, op.notes, op.coin, op.reply);
    ApproveKeeps(w.wallet, op.requestId, op.actor, op.notes);
    ApproveExact(w.wallet, op.requestId, op.actor, op.notes);
    if ending.Submitted? {
      RelabelExact(s1, Annotate(op.requestId, Receipt(ending.submission)));
    }
  }

  lemma ApproveFlowExact(c: Config, w: Flow, op: FlowOp)
    requires Inv(w.wallet) && PendingExact(w.wallet) && op.FlowApprove?
    ensures PendingExact(FlowStep(c, w, op).wallet) <==> CleanCall(c, w, op)
  {
    ApproveCases(c, w, op);
    if ReachesCompletion(c, w, op) {
      if EndingOfOp(c, w, op).Compensated? {
        MinerFailureHolds(c, w, op.requestId, op.actor, op.notes, op.coin, op.reply);
      } else {
        CompleteExact(c, w, op);
      }
    } else if FirstApproval(c, w, op) {
      RelabelExact(w.wallet, MarkStage1(op.requestId, op.actor, op.notes, STAGE));
    }
  }

  lemma ScreenExact(c: Config, w: Flow, r: Request, context: Risk.Context, now: int)
    requires Inv(w.wallet) && PendingExact(w.wallet)
    ensures PendingExact(ScreenFlow(c, w, r, context, now).0.wallet)
  {
    var notes := if r.id in w.wallet.requests then w.wallet.requests[r.id].notes else None;
    ReleaseExact(w.wallet, r.id, Cancelled, RISK_SYSTEM, notes);
    assert CancelSpec(w.wallet, r.id, RISK_SYSTEM) == ReleaseSpec(w.wallet, r.id, Cancelled, RISK_SYSTEM, notes);
    var wallet := ScreenFlow(c, w, r, context, now).0.wallet;
    assert wallet == w.wallet || wallet == CancelSpec(w.wallet, r.id, RISK_SYSTEM).0;
  }

  lemma RequestFlowExact(c: Config, w: Flow, op: FlowOp)
    requires Inv(w.wallet) && PendingExact(w.wallet) && op.FlowRequest?
    ensures PendingExact(FlowStep(c, w, op).wallet)
  {
    RequestKeeps(w.wallet, op.walletId, op.amount, op.actor, op.reference, op.metadata);
    RequestExact(w.wallet, op.walletId, op.amount, op.actor, op.reference, op.metadata);
    var (s1, requested) := RequestSpec(w.wallet, op.walletId, op.amount, op.actor, op.reference, op.metadata);
    if requested.Success? {
      var r := requested.value;
      ScreenExact(c, w.(wallet := s1, audit := Logged(w.audit, r, Requested, op.actor)), r,
                  Risk.Context(r.id, op.actor, op.amount, op.ip, op.device), op.now);
    }
  }

  lemma OtherFlowExact(c: Config, w: Flow, op: FlowOp)
    requires Inv(w.wallet) && PendingExact(w.wallet) && !op.FlowApprove? && !op.FlowRequest?
    ensures PendingExact(FlowStep(c, w, op).wallet)
  {
    match op
    case FlowReject(r, actor, notes) => ReleaseExact(w.wallet, r, Rejected, actor, notes);
    case FlowCancel(r, actor) =>
      ReleaseExact(w.wallet, r, Cancelled, actor, if r in w.wallet.requests then w.wallet.requests[r].notes else None);
    case Funds(inner) =>
      if inner.EnsureWallet? || inner.Credit? || inner.Debit? || inner.SetStatus? {
        StepExact(w.wallet, inner);
      }
  }

  /** From an exact state one workflow call keeps pending exact if and only if it is clean. */
  lemma FlowStepExact(c: Config, w: Flow, op: FlowOp)
    requires Inv(w.wallet) && PendingExact(w.wallet)
    ensures PendingExact(FlowStep(c, w, op).wallet) <==> CleanCall(c, w, op)
  {
    if op.FlowApprove? {
      ApproveFlowExact(c, w, op);
    } else if op.FlowRequest? {
      RequestFlowExact(c, w, op);
    } else {
      OtherFlowExact(c, w, op);
    }
  }

  /** Pending equals the open holds at every point of a workflow run if and only if no
      execution that the miner refused met another open hold on its wallet. */
  lemma {:induction false} FlowExactIffClean(c: Config, ops: seq<FlowOp>)
    ensures FlowExact(c, ops) <==> CleanFlow(c, ops)
    ensures CleanFlow(c, ops) ==> PendingExact(FlowRun(c, ops).wallet)
  {
    if |ops| == 0 {
      assert forall w :: ExactAt(PointWallet.EMPTY, w);
    } else {
      var before := ops[..|ops| - 1];
      FlowExactIffClean(c, before);
      FlowRunKeeps(c, before);
      if PendingExact(FlowRun(c, before).wallet) {
        FlowStepExact(c, FlowRun(c, before), ops[|ops| - 1]);
      }
    }
  }

  /** A risk rule blocks the request the call would open. */
  predicate BlockedCall(c: Config, w: Flow, op: FlowOp) {
    && op.FlowRequest? && c.rules.Some?
    && RequestSpec(w.wallet, op.walletId, op.amount, op.actor, op.reference, op.metadata).1.Success?
    && exists i :: 0 <= i < |c.rules.value|
         && Risk.Blocks(c.rules.value[i], Risk.Context(w.wallet.nextId, op.actor, op.amount, op.ip, op.device))
  }

  /** On every clean run a blocked request ends cancelled with all wallets as before. */
  lemma BlockedOnCleanRun(c: Config, ops: seq<FlowOp>, op: FlowOp)
    requires CleanFlow(c, ops) && BlockedCall(c, FlowRun(c, ops), op)
    ensures var w := FlowRun(c, ops); var w' := FlowStep(c, w, op);
      && w.wallet.nextId in w'.wallet.requests && w'.wallet.requests[w.wallet.nextId].status == Cancelled
      && w'.wallet.wallets == w.wallet.wallets
  {
    FlowRunKeeps(c, ops);
    FlowExactIffClean(c, ops);
    var w := FlowRun(c, ops);
    BlockedRequestCancelledIff(c, w, op.walletId, op.amount, op.actor, op.reference, op.metadata, op.ip, op.device, op.now);
    assert ExactAt(w.wallet, op.walletId);
    SumNonNegative(w.wallet.requests, op.walletId, OPEN, w.wallet.nextId);
  }

  // --------------------------------------------------- a blocked call that stays

  const RULES: seq<Risk.Rule> := [Risk.IpReputation(["bad"], [])]

  const SCREENED := Config(false, true, Some(RULES), Some(1))

  const HOLD := FlowRequest(0, 10, "u", None, map[], None, None, 0)

  const MINED := FlowApprove(1, "a", None, Some("BTC"), true, Refusing())

  const PAID_OUT := FlowApprove(2, "a", None, None, true, Refusing())

  /** A credit of 20, two requests of 10, the first refused by the miner and the second paid. */
  function Sequence(): seq<FlowOp> { [Funds(Credit("u", 20, None)), HOLD, HOLD, MINED, PAID_OUT] }

  /** A request of 10 that no rule stops. */
  lemma HoldPlaced(w: Flow) returns (w': Flow)
    requires 0 in w.wallet.wallets && w.wallet.wallets[0].userId == "u" && w.wallet.wallets[0].id == 0
    requires w.wallet.wallets[0].status == Active && w.wallet.wallets[0].balance - w.wallet.wallets[0].pending >= 10
    ensures w' == FlowStep(SCREENED, w, HOLD)
    ensures w'.wallet.wallets == w.wallet.wallets[0 := w.wallet.wallets[0].(pending := w.wallet.wallets[0].pending + 10)]
    ensures w'.wallet.nextId == w.wallet.nextId + 1
    ensures w'.wallet.requests == w.wallet.requests[w.wallet.nextId :=
              Request(w.wallet.nextId, 0, 10, Pending, "u", None, map[], None, None, None)]
  {
    w' := FlowStep(SCREENED, w, HOLD);
    var context := Risk.Context(w.wallet.nextId, "u", 10, None, None);
    Risk.BlockedIff(RULES, context, w.risk.devices, 0, 1);
  }

  lemma TwoHoldsPlaced() returns (w: Flow)
    ensures w == FlowStep(SCREENED, FlowStep(SCREENED, FlowStep(SCREENED, START, Funds(Credit("u", 20, None))), HOLD), HOLD)
    ensures Inv(w.wallet) && w.wallet.nextId == 3
    ensures w.wallet.wallets == map[0 := Wallet(0, "u", 20, 20, Active)]
    ensures w.wallet.requests == map[1 := Request(1, 0, 10, Pending, "u", None, map[], None, None, None),
                                     2 := Request(2, 0, 10, Pending, "u", None, map[], None, None, None)]
  {
    var w1 := FirstCredit(SCREENED, 20);
    var w2 := HoldPlaced(w1);
    FlowStepKeeps(SCREENED, w1, HOLD);
    w := HoldPlaced(w2);
    FlowStepKeeps(SCREENED, w2, HOLD);
  }

  lemma MinerRefuses(w: Flow) returns (w': Flow)
    requires Inv(w.wallet) && w.wallet.nextId == 3 && w.wallet.wallets == map[0 := Wallet(0, "u", 20, 20, Active)]
    requires 1 in w.wallet.requests && w.wallet.requests[1] == Request(1, 0, 10, Pending, "u", None, map[], None, None, None)
    requires 2 in w.wallet.requests && w.wallet.requests[2] == Request(2, 0, 10, Pending, "u", None, map[], None, None, None)
    ensures w' == FlowStep(SCREENED, w, MINED)
    ensures Inv(w'.wallet) && w'.wallet.nextId == 3 && w'.wallet.wallets == map[0 := Wallet(0, "u", 20, 0, Active)]
    ensures 2 in w'.wallet.requests && w'.wallet.requests[2] == w.wallet.requests[2]
  {
    w' := FlowStep(SCREENED, w, MINED);
    FlowStepKeeps(SCREENED, w, MINED);
    MinerRefusesEnding(w);
    CompensatedFigures(SCREENED, w, MINED);
  }

  lemma MinerRefusesEnding(w: Flow)
    requires w.wallet.wallets == map[0 := Wallet(0, "u", 20, 20, Active)]
    requires 1 in w.wallet.requests && w.wallet.requests[1] == Request(1, 0, 10, Pending, "u", None, map[], None, None, None)
    ensures EndingOfOp(SCREENED, w, MINED) == Compensated("down")
  {
    assert ApproveSpec(w.wallet, 1, "a", None).1.Success?;
  }

  lemma SecondPaid(w: Flow) returns (w': Flow)
    requires Inv(w.wallet) && w.wallet.nextId == 3 && w.wallet.wallets == map[0 := Wallet(0, "u", 20, 0, Active)]
    requires 2 in w.wallet.requests && w.wallet.requests[2] == Request(2, 0, 10, Pending, "u", None, map[], None, None, None)
    ensures w' == FlowStep(SCREENED, w, PAID_OUT)
    ensures Inv(w'.wallet) && w'.wallet.nextId == 3 && w'.wallet.wallets == map[0 := Wallet(0, "u", 10, -10, Active)]
  {
    w' := FlowStep(SCREENED, w, PAID_OUT);
    FlowStepKeeps(SCREENED, w, PAID_OUT);
    SecondPaidEnding(w);
    PlainFigures(SCREENED, w, PAID_OUT);
  }

  lemma SecondPaidEnding(w: Flow)
    requires w.wallet.wallets == map[0 := Wallet(0, "u", 20, 0, Active)]
    requires 2 in w.wallet.requests && w.wallet.requests[2] == Request(2, 0, 10, Pending, "u", None, map[], None, None, None)
    ensures EndingOfOp(SCREENED, w, PAID_OUT) == Plain
  {
    assert ApproveSpec(w.wallet, 2, "a", None).1.Success?;
  }

  /** The run leaves pending at minus ten. */
  lemma SequenceOverdrawn()
    ensures var w := FlowRun(SCREENED, Sequence());
      && w.wallet.wallets == map[0 := Wallet(0, "u", 10, -10, Active)] && w.wallet.nextId == 3 && Inv(w.wallet)
  {
    FiveSteps(SCREENED, Funds(Credit("u", 20, None)), HOLD, HOLD, MINED, PAID_OUT);
    var w3 := TwoHoldsPlaced();
    var w4 := MinerRefuses(w3);
    var w5 := SecondPaid(w4);
  }

  lemma FiveSteps(c: Config, op0: FlowOp, op1: FlowOp, op2: FlowOp, op3: FlowOp, op4: FlowOp)
    ensures FlowRun(c, [op0, op1, op2, op3, op4])
         == FlowStep(c, FlowStep(c, FlowStep(c, FlowStep(c, FlowStep(c, START, op0), op1), op2), op3), op4)
  {
    FourSteps(c, op0, op1, op2, op3);
    FlowRunAppend(c, [op0, op1, op2, op3], op4);
    assert [op0, op1, op2, op3] + [op4] == [op0, op1, op2, op3, op4];
  }

  /** A blocked call after that run: its automatic cancellation is refused, and the request
      of 5 from the blocked address stays pending, with its hold. */
  lemma BlockedRequestStays()
    ensures var w := FlowRun(SCREENED, Sequence());
      var (w', result) := RequestFlow(SCREENED, w, 0, 5, "u", None, map[], Some("bad"), None, 0);
      && w' == FlowRun(SCREENED, Sequence() + [FlowRequest(0, 5, "u", None, map[], Some("bad"), None, 0)])
      && result == Failure(WalletRefused(PendingInsufficient))
      && 3 in w'.wallet.requests && w'.wallet.requests[3].status == Pending && w'.wallet.requests[3].amount == 5
  {
    SequenceOverdrawn();
    var w := FlowRun(SCREENED, Sequence());
    var op := FlowRequest(0, 5, "u", None, map[], Some("bad"), None, 0);
    assert Risk.Blocks(RULES[0], Risk.Context(3, "u", 5, Some("bad"), None));
    BlockedRequestCancelledIff(SCREENED, w, 0, 5, "u", None, map[], Some("bad"), None, 0);
    FlowRunAppend(SCREENED, Sequence(), op);
    assert RequestSpec(w.wallet, 0, 5, "u", None, map[]).0.requests[3].amount == 5;
  }
}
