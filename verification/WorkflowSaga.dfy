/** The mining saga over whole runs: submitted records, executed requests and the
    withdrawal ids found in the requests. */
module WorkflowSaga {
  import opened Wrappers
  import opened PointWallet
  import opened PointWalletLaws
  import opened Mining
  import opened Workflow
  import opened WorkflowLaws

  /** The request for which the call triggers approve_and_execute, if it does. */
  function Triggers(c: Config, w: Flow, op: FlowOp): Option<Id> {
    if op.FlowApprove? && ReachesCompletion(c, w, op)
       && var ending := EndingOfOp(c, w, op);
          ending.NoCoin? || ending.Submitted? || ending.Compensated?
    then Some(op.requestId) else None
  }

  /** How often the run triggers approve_and_execute for request r. */
  ghost function TriggerCount(c: Config, ops: seq<FlowOp>, r: Id): nat {
    if |ops| == 0 then 0
    else
      var before := ops[..|ops| - 1];
      TriggerCount(c, before, r) + if Triggers(c, FlowRun(c, before), ops[|ops| - 1]) == Some(r) then 1 else 0
  }

  /** A request that left the held states does not come back to them. */
  lemma NeverHeldAgain(c: Config, w: Flow, op: FlowOp, r: Id)
    requires Structure(w.wallet) && r in w.wallet.requests && !Holding(w.wallet.requests[r].status)
    ensures r in FlowStep(c, w, op).wallet.requests && !Holding(FlowStep(c, w, op).wallet.requests[r].status)
  {
    var change := StepMirrors(c, w, op);
  }

  /** Each request triggers approve_and_execute at most once, and is approved or failed from then on. */
  lemma {:induction false} TriggeredAtMostOnce(c: Config, ops: seq<FlowOp>, r: Id)
    ensures TriggerCount(c, ops, r) <= 1
    ensures TriggerCount(c, ops, r) == 1 ==>
      r in FlowRun(c, ops).wallet.requests && !Holding(FlowRun(c, ops).wallet.requests[r].status)
  {
    if |ops| > 0 {
      var before, op := ops[..|ops| - 1], ops[|ops| - 1];
      var w := FlowRun(c, before);
      TriggeredAtMostOnce(c, before, r);
      FlowRunKeeps(c, before);
      if r in w.wallet.requests && !Holding(w.wallet.requests[r].status) {
        NeverHeldAgain(c, w, op, r);
      }
      if Triggers(c, w, op) == Some(r) {
        ApproveCases(c, w, op);
        CompleteEnds(c, w, r, op.actor, op.notes, op.coin, op.reply);
      }
    }
  }

  /** The requests whose execution the miner accepted, in the order of the run. */
  ghost function Executed(c: Config, ops: seq<FlowOp>): seq<Id> {
    if |ops| == 0 then []
    else
      var before, op := ops[..|ops| - 1], ops[|ops| - 1];
      Executed(c, before) + Accepted(c, FlowRun(c, before), op)
  }

  /** Record m is the submission of request r: r is approved, carries m's withdrawal id, and
      its wallet belongs to m's user. */
  ghost predicate Receipted(w: Flow, r: Id, m: MiningRecord) {
    && r in w.wallet.requests && w.wallet.requests[r].status == Approved
    && m.withdrawId.Some?
    && WITHDRAW_ID in w.wallet.requests[r].metadata
    && w.wallet.requests[r].metadata[WITHDRAW_ID] == Text(m.withdrawId.value)
    && w.wallet.requests[r].walletId in w.wallet.wallets
    && w.wallet.wallets[w.wallet.requests[r].walletId].userId == m.userId
  }

  /** The i-th submitted record belongs to the i-th executed request, and those are distinct. */
  ghost predicate Paired(w: Flow, ids: seq<Id>) {
    && |ids| == |SubmittedOf(w.mining)|
    && (forall i, j :: 0 <= i < j < |ids| ==> ids[i] != ids[j])
    && (forall i {:trigger Receipted(w, ids[i], SubmittedOf(w.mining)[i])} :: 0 <= i < |ids| ==> Receipted(w, ids[i], SubmittedOf(w.mining)[i]))
  }

  /** A withdrawal id comes from an execution or was brought by the caller. */
  ghost predicate Sourced(w: Flow, ids: seq<Id>, brought: set<Id>) {
    forall r :: r in w.wallet.requests && WITHDRAW_ID in w.wallet.requests[r].metadata ==> r in ids || r in brought
  }

  predicate Annotated(w: Flow, r: Id) {
    r in w.wallet.requests && w.wallet.requests[r].status == Approved && WITHDRAW_ID in w.wallet.requests[r].metadata
  }

  /** Every approved request with a withdrawal id was executed. */
  ghost predicate AllSubmitted(w: Flow, ids: seq<Id>) {
    forall r :: Annotated(w, r) ==> r in ids
  }

  /** The call approves, without submitting it, a request that already has a withdrawal id. */
  ghost predicate Passes(c: Config, w: Flow, op: FlowOp) {
    && op.FlowApprove? && ReachesCompletion(c, w, op)
    && WITHDRAW_ID in w.wallet.requests[op.requestId].metadata
    && var ending := EndingOfOp(c, w, op);
       ending.Plain? || ending.NoCoin?
  }

  ghost predicate NeverPasses(c: Config, ops: seq<FlowOp>) {
    |ops| > 0 ==> NeverPasses(c, ops[..|ops| - 1]) && !Passes(c, FlowRun(c, ops[..|ops| - 1]), ops[|ops| - 1])
  }

  /** A receipt stays valid: neither an approved request nor the owner of its wallet changes. */
  lemma ReceiptsStay(c: Config, w: Flow, w': Flow, change: Change, ids: seq<Id>)
    requires Mirrors(c, w, w', change) && Paired(w, ids)
    ensures forall i :: 0 <= i < |ids| ==> Receipted(w', ids[i], SubmittedOf(w.mining)[i])
  {
    forall i | 0 <= i < |ids| ensures Receipted(w', ids[i], SubmittedOf(w.mining)[i]) {
      assert Receipted(w, ids[i], SubmittedOf(w.mining)[i]);
    }
  }

  lemma MirrorPaired(c: Config, w: Flow, w': Flow, change: Change, accepted: seq<Id>, ids: seq<Id>)
    requires Mirrors(c, w, w', change) && Tallies(change, accepted) && Paired(w, ids)
    ensures Paired(w', ids + accepted)
  {
    var was, now, ids' := SubmittedOf(w.mining), SubmittedOf(w'.mining), ids + accepted;
    ReceiptsStay(c, w, w', change, ids);
    if accepted != [] {
      forall i | 0 <= i < |ids| ensures ids[i] != change.r.id {
        assert Receipted(w, ids[i], was[i]);
      }
      assert Receipted(w', change.r.id, now[|was|]);
    }
    forall i | 0 <= i < |ids'| ensures Receipted(w', ids'[i], now[i]) {
      if i < |ids| {
        assert Receipted(w', ids[i], was[i]);
      }
    }
  }

  /** A change that is not an accepted submission adds no withdrawal id to a known request. */
  lemma NoNewReceipt(c: Config, w: Flow, w': Flow, change: Change, r: Id)
    requires Mirrors(c, w, w', change) && ReceiptOf(change) == []
    requires r in w.wallet.requests && r in w'.wallet.requests && WITHDRAW_ID in w'.wallet.requests[r].metadata
    ensures WITHDRAW_ID in w.wallet.requests[r].metadata
  {
    if change.Moved? && change.r.id == r && change.r.status == ApprovedStage1 {
      var was := w.wallet.requests[r];
      var notes :| change.r.metadata == Stage1Metadata(was.metadata, STAGE, change.actor, notes);
      Stage1Names(was.metadata, change.actor, notes);
    }
  }

  lemma MirrorSourced(c: Config, w: Flow, op: FlowOp, w': Flow, change: Change, accepted: seq<Id>, ids: seq<Id>,
                      brought: set<Id>, brought': set<Id>)
    requires w' == FlowStep(c, w, op) && Mirrors(c, w, w', change) && Tallies(change, accepted) && Sourced(w, ids, brought)
    requires change.Opened? || change.OpenedAndBlocked? ==> op.FlowRequest? && change.r.metadata == op.metadata
    requires brought' == brought + if BringsKey(op, WITHDRAW_ID) then OpenedBy(w, w') else {}
    ensures Sourced(w', ids + accepted, brought')
  {
    forall r | r in w'.wallet.requests && WITHDRAW_ID in w'.wallet.requests[r].metadata ensures r in ids + accepted || r in brought' {
      BroughtNow(c, w, op, w', change, WITHDRAW_ID, r);
      if accepted != [] && r == change.r.id {
        assert (ids + accepted)[|ids|] == r;
      } else if r in w.wallet.requests {
        if accepted == [] {
          NoNewReceipt(c, w, w', change, r);
        }
        assert r in ids || r in brought;
      }
    }
  }

  /** A request becomes approved only by a completed final approval, and what it then has in
      its metadata it had before, unless it was submitted. */
  lemma BecomesApproved(c: Config, w: Flow, op: FlowOp, w': Flow, r: Id)
    requires Structure(w.wallet) && w' == FlowStep(c, w, op) && Annotated(w', r)
    requires !(r in w.wallet.requests && w.wallet.requests[r].status == Approved)
    ensures Accepted(c, w, op) == [r] || Passes(c, w, op)
  {
    if op.FlowApprove? {
      ApproveCases(c, w, op);
      if ReachesCompletion(c, w, op) {
        CompleteEnds(c, w, op.requestId, op.actor, op.notes, op.coin, op.reply);
      }
    } else {
      OthersApproveNothing(c, w, op, w', r);
      assert false;
    }
  }

  lemma OthersApproveNothing(c: Config, w: Flow, op: FlowOp, w': Flow, r: Id)
    requires Structure(w.wallet) && !op.FlowApprove? && w' == FlowStep(c, w, op)
    requires r in w'.wallet.requests && w'.wallet.requests[r].status == Approved
    ensures r in w.wallet.requests && w.wallet.requests[r].status == Approved
  {
    match op
    case FlowRequest(_, _, _, _, _, _, _, _) =>
      RequestMirrors(c, w, op);
      var change :| Mirrors(c, w, FlowStep(c, w, op), change) && !change.Moved?;
    case Funds(_) => FundsMirrors(c, w, op);
    case _ =>
  }

  /** An approved request stays as it is. */
  lemma ApprovedStays(c: Config, w: Flow, w': Flow, change: Change, r: Id)
    requires Mirrors(c, w, w', change) && r in w.wallet.requests && w.wallet.requests[r].status == Approved
    ensures r in w'.wallet.requests && w'.wallet.requests[r] == w.wallet.requests[r]
  {
  }

  /** A call that passes a request without submitting it leaves it approved, annotated and
      outside the executed ones. */
  lemma PassedUnsubmitted(c: Config, w: Flow, op: FlowOp, ids: seq<Id>)
    requires Structure(w.wallet) && Paired(w, ids) && Passes(c, w, op)
    ensures Annotated(FlowStep(c, w, op), op.requestId) && op.requestId !in ids && Accepted(c, w, op) == []
  {
    ApproveCases(c, w, op);
    CompleteEnds(c, w, op.requestId, op.actor, op.notes, op.coin, op.reply);
    forall i | 0 <= i < |ids| ensures ids[i] != op.requestId {
      assert Receipted(w, ids[i], SubmittedOf(w.mining)[i]);
    }
  }

  lemma SubmittedStay(c: Config, w: Flow, op: FlowOp, w': Flow, change: Change, ids: seq<Id>)
    requires Structure(w.wallet) && w' == FlowStep(c, w, op) && Mirrors(c, w, w', change)
    requires AllSubmitted(w, ids) && !Passes(c, w, op)
    ensures AllSubmitted(w', ids + Accepted(c, w, op))
  {
    forall r | Annotated(w', r) ensures r in ids + Accepted(c, w, op) {
      if r in w.wallet.requests && w.wallet.requests[r].status == Approved {
        ApprovedStays(c, w, w', change, r);
        assert Annotated(w, r);
      } else {
        BecomesApproved(c, w, op, w', r);
        assert Accepted(c, w, op)[0] == r;
      }
    }
  }

  lemma UnsubmittedStays(c: Config, w: Flow, w': Flow, change: Change, accepted: seq<Id>, ids: seq<Id>)
    requires Mirrors(c, w, w', change) && Tallies(change, accepted) && !AllSubmitted(w, ids)
    ensures !AllSubmitted(w', ids + accepted)
  {
    var r :| Annotated(w, r) && r !in ids;
    ApprovedStays(c, w, w', change, r);
    assert Annotated(w', r) && r !in ids + accepted;
  }

  lemma StepSubmitted(c: Config, w: Flow, op: FlowOp, w': Flow, change: Change, accepted: seq<Id>, ids: seq<Id>)
    requires Structure(w.wallet) && Paired(w, ids) && w' == FlowStep(c, w, op) && accepted == Accepted(c, w, op)
    requires Mirrors(c, w, w', change) && Tallies(change, accepted)
    ensures AllSubmitted(w', ids + accepted) <==> AllSubmitted(w, ids) && !Passes(c, w, op)
  {
    if !AllSubmitted(w, ids) {
      UnsubmittedStays(c, w, w', change, accepted, ids);
    } else if Passes(c, w, op) {
      PassedUnsubmitted(c, w, op, ids);
      assert Annotated(w', op.requestId) && op.requestId !in ids + accepted;
    } else {
      SubmittedStay(c, w, op, w', change, ids);
    }
  }

  /** The mining saga over every run.  The submitted mining records belong one to one, in
      order, to the executed requests, all of them approved and carrying their record's
      withdrawal id; any other withdrawal id was brought by a caller; and the approved
      requests with a withdrawal id are all executed ones if and only if no call approved,
      without submitting it, a request that had one before. */
  lemma {:induction false} SubmissionsCorrespond(c: Config, ops: seq<FlowOp>)
    ensures var w, ids := FlowRun(c, ops), Executed(c, ops);
      && Paired(w, ids)
      && Sourced(w, ids, Brought(c, ops, WITHDRAW_ID))
      && (AllSubmitted(w, ids) <==> NeverPasses(c, ops))
  {
    if |ops| > 0 {
      var before := ops[..|ops| - 1];
      SubmissionsCorrespond(c, before);
      FlowRunKeeps(c, before);
      var w, op, ids := FlowRun(c, before), ops[|ops| - 1], Executed(c, before);
      var change := StepMirrors(c, w, op);
      MirrorPaired(c, w, FlowStep(c, w, op), change, Accepted(c, w, op), ids);
      MirrorSourced(c, w, op, FlowStep(c, w, op), change, Accepted(c, w, op), ids,
                    Brought(c, before, WITHDRAW_ID), Brought(c, ops, WITHDRAW_ID));
      StepSubmitted(c, w, op, FlowStep(c, w, op), change, Accepted(c, w, op), ids);
    }
  }

  /** Executed requests carry their withdrawal id, so when no call brings one of its own, the
      requests with a withdrawal id are exactly the executed ones. */
  lemma UnforgedSubmissions(c: Config, ops: seq<FlowOp>, r: Id)
    requires Brought(c, ops, WITHDRAW_ID) == {}
    ensures r in Executed(c, ops) <==> r in FlowRun(c, ops).wallet.requests && WITHDRAW_ID in FlowRun(c, ops).wallet.requests[r].metadata
  {
    SubmissionsCorrespond(c, ops);
    var w, ids := FlowRun(c, ops), Executed(c, ops);
    if r in ids {
      var i :| 0 <= i < |ids| && ids[i] == r;
      assert Receipted(w, ids[i], SubmittedOf(w.mining)[i]);
    }
  }

  /** A run that passes one: a request that came with a withdrawal id is approved without
      any submission, and carries that id. */
  lemma ForgedReceiptExample()
    ensures var c, fail := Config(false, true, None, None), Refusing();
      var ops := [Funds(Credit("u", 10, None)),
                  FlowRequest(0, 10, "u", None, map[WITHDRAW_ID := Text("x")], None, None, 0),
                  FlowApprove(1, "a", None, None, true, fail)];
      var w := FlowRun(c, ops);
      Annotated(w, 1) && w.wallet.requests[1].metadata == map[WITHDRAW_ID := Text("x")] && w.mining == [] && 1 !in Executed(c, ops)
  {
    var c, fail := Config(false, true, None, None), Refusing();
    var meta := map[WITHDRAW_ID := Text("x")];
    var op0, op1 := Funds(Credit("u", 10, None)), FlowRequest(0, 10, "u", None, meta, None, None, 0);
    var op2 := FlowApprove(1, "a", None, None, true, fail);
    var w2 := OneRequest(c, meta);
    PlainApproval(c, w2, op2, meta);
    ThreeSteps(c, op0, op1, op2);
    NothingExecuted(c, [op0, op1, op2]);
  }

  lemma PlainApproval(c: Config, w: Flow, op: FlowOp, meta: Metadata)
    requires !c.twoStep && c.attempts == None && op.FlowApprove? && op.requestId == 1
    requires Structure(w.wallet) && w.mining == [] && w.wallet.wallets == map[0 := Wallet(0, "u", 10, 10, Active)]
    requires w.wallet.requests == map[1 := Request(1, 0, 10, Pending, "u", None, meta, None, None, None)]
    ensures var w' := FlowStep(c, w, op);
      && 1 in w'.wallet.requests && w'.wallet.requests[1].status == Approved && w'.wallet.requests[1].metadata == meta
      && w'.mining == []
  {
    assert ApproveSpec(w.wallet, 1, op.actor, op.notes).1.Success?;
    assert EndingOfOp(c, w, op) == Plain;
    PlainFigures(c, w, op);
  }

  lemma NothingExecuted(c: Config, ops: seq<FlowOp>)
    requires FlowRun(c, ops).mining == []
    ensures Executed(c, ops) == []
  {
    SubmissionsCorrespond(c, ops);
  }
}
