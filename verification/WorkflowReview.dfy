/** Two-step review: who approved a request, over every run, and exactly when one person
    can give both approvals. */
module WorkflowReview {
  import opened Wrappers
  import opened PointWallet
  import opened PointWalletLaws
  import opened Mining
  import opened Workflow
  import opened WorkflowLaws

  /** The audit records of first approvals of request r. */
  function FirstApprovals(audit: seq<AuditRecord>, r: Id): seq<AuditRecord> {
    if audit == [] then []
    else
      var last := audit[|audit| - 1];
      FirstApprovals(audit[..|audit| - 1], r) + if last.requestId == r && last.action == ApprovedFirst then [last] else []
  }

  lemma LoggedApprovals(audit: seq<AuditRecord>, q: Request, action: Action, actor: string, r: Id)
    ensures FirstApprovals(Logged(audit, q, action, actor), r)
         == FirstApprovals(audit, r)
            + if q.id == r && action == ApprovedFirst then [AuditRecord(q.id, q.walletId, action, actor, q.amount, q.status)] else []
  {
    var audit' := Logged(audit, q, action, actor);
    assert audit'[..|audit'| - 1] == audit;
  }

  /** While pending, request r was never approved and names a first approver only if the
      caller brought one; from its first approval on, one audit record names the first
      approver.  Whoever approved it finally is not the one its metadata names, and so is
      somebody else than the first approver unless the caller brought that name. */
  ghost predicate ReviewedAt(w: Flow, brought: set<Id>, r: Id) {
    var first := FirstApprovals(w.audit, r);
    if r !in w.wallet.requests then first == [] && r !in brought
    else
      var q := w.wallet.requests[r];
      match q.status
      case Pending => first == [] && (r in brought <==> STAGE1_APPROVER in q.metadata)
      case Rejected => first == []
      case Cancelled => first == []
      case ApprovedStage1 =>
        && |first| == 1 && first[0].status == ApprovedStage1
        && STAGE1_APPROVER in q.metadata
        && (r !in brought ==> q.metadata[STAGE1_APPROVER] == Text(first[0].actor))
      case _ =>
        && |first| == 1 && first[0].status == ApprovedStage1
        && STAGE1_APPROVER in q.metadata && q.approvedBy.Some?
        && q.metadata[STAGE1_APPROVER] != Text(q.approvedBy.value)
        && (r !in brought ==> q.approvedBy.value != first[0].actor)
  }

  ghost predicate Reviewed(w: Flow, brought: set<Id>) {
    forall r {:trigger ReviewedAt(w, brought, r)} :: ReviewedAt(w, brought, r)
  }

  predicate TwoPeople(c: Config) { c.twoStep && c.distinct }

  lemma OpenedApprovals(c: Config, w: Flow, w': Flow, change: Change, r: Id)
    requires change.Opened? && Mirrors(c, w, w', change)
    ensures FirstApprovals(w'.audit, r) == FirstApprovals(w.audit, r)
  {
    var q := change.r;
    var actor :| || w'.audit == Logged(w.audit, q, Requested, actor)
                 || w'.audit == Logged(Logged(w.audit, q, Requested, actor), q, Flagged, RISK_SYSTEM);
    LoggedApprovals(w.audit, q, Requested, actor, r);
    LoggedApprovals(Logged(w.audit, q, Requested, actor), q, Flagged, RISK_SYSTEM, r);
  }

  lemma BlockedApprovals(c: Config, w: Flow, w': Flow, change: Change, r: Id)
    requires change.OpenedAndBlocked? && Mirrors(c, w, w', change)
    ensures FirstApprovals(w'.audit, r) == FirstApprovals(w.audit, r)
  {
    var q := change.r;
    var actor :| w'.audit == Logged(Logged(w.audit, q, Requested, actor), change.done, CancelledBy, RISK_SYSTEM);
    LoggedApprovals(w.audit, q, Requested, actor, r);
    LoggedApprovals(Logged(w.audit, q, Requested, actor), change.done, CancelledBy, RISK_SYSTEM, r);
  }

  /** A request the call neither opened nor moved stays reviewed. */
  lemma BystanderReviewed(w: Flow, w': Flow, brought: set<Id>, brought': set<Id>, r: Id)
    requires ReviewedAt(w, brought, r) && FirstApprovals(w'.audit, r) == FirstApprovals(w.audit, r)
    requires r in w'.wallet.requests <==> r in w.wallet.requests
    requires r in w.wallet.requests ==> w'.wallet.requests[r] == w.wallet.requests[r]
    requires r in brought' <==> r in brought
    ensures ReviewedAt(w', brought', r)
  {
  }

  /** A request just opened, cancelled at once or not. */
  lemma NewReviewed(w: Flow, w': Flow, brought: set<Id>, brought': set<Id>, r: Id)
    requires ReviewedAt(w, brought, r) && FirstApprovals(w'.audit, r) == FirstApprovals(w.audit, r)
    requires r !in w.wallet.requests && r in w'.wallet.requests && w'.wallet.requests[r].status in {Pending, Cancelled}
    requires r in brought' <==> STAGE1_APPROVER in w'.wallet.requests[r].metadata
    ensures ReviewedAt(w', brought', r)
  {
  }

  /** A receipt leaves the name of the first approver alone. */
  lemma ReceiptKeepsName(base: Metadata, id: string, coin: string)
    ensures var m := base + map[WITHDRAW_ID := Text(id), COIN := Text(coin)];
      && (STAGE1_APPROVER in m <==> STAGE1_APPROVER in base)
      && (STAGE1_APPROVER in base ==> m[STAGE1_APPROVER] == base[STAGE1_APPROVER])
  {
    assert |WITHDRAW_ID| == 19 && |STAGE1_APPROVER| == 15 && |COIN| == 4;
  }

  lemma MarkedReviewed(c: Config, w: Flow, w': Flow, change: Change, brought: set<Id>)
    requires change.Moved? && Mirrors(c, w, w', change) && ReviewedAt(w, brought, change.r.id)
    requires change.r.status == ApprovedStage1
    ensures ReviewedAt(w', brought, change.r.id)
  {
    LoggedApprovals(w.audit, change.r, change.action, change.actor, change.r.id);
    var was := w.wallet.requests[change.r.id];
    var notes :| change.r.metadata == Stage1Metadata(was.metadata, STAGE, change.actor, notes);
    Stage1Names(was.metadata, change.actor, notes);
  }

  lemma FinishedReviewed(c: Config, w: Flow, w': Flow, change: Change, brought: set<Id>)
    requires TwoPeople(c) && change.Moved? && Mirrors(c, w, w', change) && ReviewedAt(w, brought, change.r.id)
    requires change.r.status != ApprovedStage1
    ensures ReviewedAt(w', brought, change.r.id)
  {
    LoggedApprovals(w.audit, change.r, change.action, change.actor, change.r.id);
    if change.receipt.Some? {
      ReceiptKeepsName(w.wallet.requests[change.r.id].metadata, change.receipt.value.withdrawId.value, change.receipt.value.coin);
    }
  }

  lemma MovedReviewed(c: Config, w: Flow, w': Flow, change: Change, brought: set<Id>, r: Id)
    requires TwoPeople(c) && change.Moved? && Mirrors(c, w, w', change)
    requires ReviewedAt(w, brought, r)
    ensures ReviewedAt(w', brought, r)
  {
    if r != change.r.id {
      LoggedApprovals(w.audit, change.r, change.action, change.actor, r);
      BystanderReviewed(w, w', brought, brought, r);
    } else if change.r.status == ApprovedStage1 {
      MarkedReviewed(c, w, w', change, brought);
    } else {
      FinishedReviewed(c, w, w', change, brought);
    }
  }

  lemma OpenedReviewed(c: Config, w: Flow, w': Flow, change: Change, brought: set<Id>, brought': set<Id>, r: Id)
    requires (change.Opened? || change.OpenedAndBlocked?) && Mirrors(c, w, w', change) && ReviewedAt(w, brought, r)
    requires r != change.r.id ==> (r in brought' <==> r in brought)
    requires r == change.r.id ==> (r in brought' <==> STAGE1_APPROVER in change.r.metadata)
    ensures ReviewedAt(w', brought', r)
  {
    if change.Opened? {
      OpenedApprovals(c, w, w', change, r);
    } else {
      BlockedApprovals(c, w, w', change, r);
    }
    if r == change.r.id {
      NewReviewed(w, w', brought, brought', r);
    } else {
      BystanderReviewed(w, w', brought, brought', r);
    }
  }

  lemma MirrorReviewed(c: Config, w: Flow, op: FlowOp, w': Flow, change: Change, brought: set<Id>, brought': set<Id>)
    requires TwoPeople(c) && Reviewed(w, brought) && Mirrors(c, w, w', change) && w' == FlowStep(c, w, op)
    requires change.Opened? || change.OpenedAndBlocked? ==> op.FlowRequest? && change.r.metadata == op.metadata
    requires brought' == brought + if BringsKey(op, STAGE1_APPROVER) then OpenedBy(w, w') else {}
    ensures Reviewed(w', brought')
  {
    forall r ensures ReviewedAt(w', brought', r) {
      assert ReviewedAt(w, brought, r);
      BroughtNow(c, w, op, w', change, STAGE1_APPROVER, r);
      match change
      case Nothing => BystanderReviewed(w, w', brought, brought', r);
      case Moved(_, _, _, _) =>
        MovedReviewed(c, w, w', change, brought, r);
        assert brought' == brought;
      case _ => OpenedReviewed(c, w, w', change, brought, brought', r);
    }
  }

  /** The request was seen in the first-approval state after some prefix of the run. */
  ghost predicate PassedStage1(c: Config, ops: seq<FlowOp>, r: Id) {
    || (r in FlowRun(c, ops).wallet.requests && FlowRun(c, ops).wallet.requests[r].status == ApprovedStage1)
    || (|ops| > 0 && PassedStage1(c, ops[..|ops| - 1], r))
  }

  /** Only a request in the first-approval state becomes approved or failed. */
  lemma OnlyFromStage1(c: Config, w: Flow, op: FlowOp, r: Id)
    requires TwoPeople(c) && Structure(w.wallet)
    requires r in FlowStep(c, w, op).wallet.requests
    requires FlowStep(c, w, op).wallet.requests[r].status in {Approved, Failed}
    ensures r in w.wallet.requests && w.wallet.requests[r].status in {ApprovedStage1, Approved, Failed}
  {
    var change := StepMirrors(c, w, op);
  }

  /** Two-step review over every run: a request that is approved, or was and failed in
      execution, passed through the first-approval state, exactly one audit record tells of
      it, its final approver is not the one its metadata names, and differs from that record's
      actor unless the caller brought a stage1_approver. */
  lemma {:induction false} TwoPeopleApproved(c: Config, ops: seq<FlowOp>)
    requires TwoPeople(c)
    ensures Reviewed(FlowRun(c, ops), Brought(c, ops, STAGE1_APPROVER))
    ensures var s := FlowRun(c, ops).wallet;
      forall r :: r in s.requests && s.requests[r].status in {Approved, Failed} ==> PassedStage1(c, ops, r)
  {
    if |ops| == 0 {
      assert forall r :: ReviewedAt(START, {}, r);
    } else {
      var before, op := ops[..|ops| - 1], ops[|ops| - 1];
      TwoPeopleApproved(c, before);
      FlowRunKeeps(c, before);
      var w := FlowRun(c, before);
      var change := StepMirrors(c, w, op);
      MirrorReviewed(c, w, op, FlowStep(c, w, op), change, Brought(c, before, STAGE1_APPROVER), Brought(c, ops, STAGE1_APPROVER));
      var s := FlowRun(c, ops).wallet;
      forall r | r in s.requests && s.requests[r].status in {Approved, Failed} ensures PassedStage1(c, ops, r) {
        OnlyFromStage1(c, w, op, r);
        assert PassedStage1(c, before, r);
      }
    }
  }

  /** One person approving twice is refused if and only if the request came without a
      stage1_approver of its own, or with that very person's name. */
  lemma SamePersonRefusedIff(c: Config, w: Flow, r: Id, actor: string, n1: Option<string>, n2: Option<string>,
                             coin: Option<string>, finalize: bool, reply: Reply)
    requires TwoPeople(c) && Structure(w.wallet)
    requires r in w.wallet.requests && w.wallet.requests[r].status == Pending
    ensures var m := w.wallet.requests[r].metadata;
      var w1 := ApproveFlow(c, w, r, actor, n1, coin, false, reply).0;
      ApproveFlow(c, w1, r, actor, n2, coin, finalize, reply).1 == Failure(SameApprover)
      <==> (STAGE1_APPROVER in m ==> m[STAGE1_APPROVER] == Text(actor))
  {
    var (w1, first) := ApproveFlow(c, w, r, actor, n1, coin, false, reply);
    assert w1.wallet.requests[r] == first.value;
    Stage1Names(w.wallet.requests[r].metadata, actor, n1);
  }

  /** One actor gave request r both the first and the final approval. */
  ghost predicate OneHand(w: Flow, r: Id, actor: string) {
    var first := FirstApprovals(w.audit, r);
    && r in w.wallet.requests && w.wallet.requests[r].status in {Approved, Failed}
    && w.wallet.requests[r].approvedBy == Some(actor)
    && |first| > 0 && first[|first| - 1].actor == actor
  }

  /** The actor's two approval calls, one after the other, give request r both. */
  ghost predicate ApprovedByOne(c: Config, w: Flow, r: Id, actor: string, n1: Option<string>, n2: Option<string>,
                                coin: Option<string>, finalize: bool, reply: Reply) {
    var w1 := FlowStep(c, w, FlowApprove(r, actor, n1, coin, false, reply));
    OneHand(FlowStep(c, w1, FlowApprove(r, actor, n2, coin, finalize, reply)), r, actor)
  }

  /** The wallet does not refuse to pay request r out. */
  predicate Payable(s: State, r: Id) {
    && r in s.requests && s.requests[r].walletId in s.wallets
    && s.wallets[s.requests[r].walletId].status == Active
    && s.requests[r].amount <= s.wallets[s.requests[r].walletId].balance
  }

  /** Both approvals by one actor go through exactly when the metadata names somebody else. */
  lemma ApprovedByOneIff(c: Config, w: Flow, r: Id, actor: string, n1: Option<string>, n2: Option<string>,
                         coin: Option<string>, finalize: bool, reply: Reply)
    requires TwoPeople(c) && Structure(w.wallet) && Payable(w.wallet, r) && w.wallet.requests[r].status == Pending
    ensures var m := w.wallet.requests[r].metadata;
      ApprovedByOne(c, w, r, actor, n1, n2, coin, finalize, reply)
      <==> STAGE1_APPROVER in m && m[STAGE1_APPROVER] != Text(actor)
  {
    var op1, op2 := FlowApprove(r, actor, n1, coin, false, reply), FlowApprove(r, actor, n2, coin, finalize, reply);
    FirstMarks(c, w, op1);
    SecondDecides(c, FlowStep(c, w, op1), op2);
  }

  lemma SecondDecides(c: Config, w: Flow, op: FlowOp)
    requires TwoPeople(c) && Structure(w.wallet) && op.FlowApprove? && Payable(w.wallet, op.requestId)
    requires w.wallet.requests[op.requestId].status == ApprovedStage1 && STAGE1_APPROVER in w.wallet.requests[op.requestId].metadata
    requires var first := FirstApprovals(w.audit, op.requestId); |first| > 0 && first[|first| - 1].actor == op.actor
    ensures OneHand(FlowStep(c, w, op), op.requestId, op.actor)
       <==> w.wallet.requests[op.requestId].metadata[STAGE1_APPROVER] != Text(op.actor)
  {
    SecondApproval(c, w, op);
  }

  /** The first approval names its actor in the audit log, and in the metadata unless a name
      is there. */
  lemma FirstMarks(c: Config, w: Flow, op: FlowOp)
    requires TwoPeople(c) && Structure(w.wallet) && op.FlowApprove? && !op.finalize
    requires Payable(w.wallet, op.requestId) && w.wallet.requests[op.requestId].status == Pending
    ensures var w', m := FlowStep(c, w, op), w.wallet.requests[op.requestId].metadata;
      && Structure(w'.wallet) && Payable(w'.wallet, op.requestId)
      && w'.wallet.requests[op.requestId].status == ApprovedStage1
      && STAGE1_APPROVER in w'.wallet.requests[op.requestId].metadata
      && w'.wallet.requests[op.requestId].metadata[STAGE1_APPROVER]
           == (if STAGE1_APPROVER in m then m[STAGE1_APPROVER] else Text(op.actor))
      && var first := FirstApprovals(w'.audit, op.requestId);
         |first| > 0 && first[|first| - 1].actor == op.actor
  {
    var marked := Stage1Spec(w.wallet, op.requestId, op.actor, op.notes, STAGE).1.value;
    ApproveCases(c, w, op);
    Stage1Names(w.wallet.requests[op.requestId].metadata, op.actor, op.notes);
    LoggedApprovals(w.audit, marked, ApprovedFirst, op.actor, op.requestId);
  }

  /** The second approval of a payable request goes through exactly when the metadata does
      not name its actor. */
  lemma SecondApproval(c: Config, w: Flow, op: FlowOp)
    requires TwoPeople(c) && Structure(w.wallet) && op.FlowApprove? && Payable(w.wallet, op.requestId)
    requires w.wallet.requests[op.requestId].status == ApprovedStage1 && STAGE1_APPROVER in w.wallet.requests[op.requestId].metadata
    ensures var w' := FlowStep(c, w, op);
      if w.wallet.requests[op.requestId].metadata[STAGE1_APPROVER] == Text(op.actor) then w' == w
      else
        && op.requestId in w'.wallet.requests && w'.wallet.requests[op.requestId].status in {Approved, Failed}
        && w'.wallet.requests[op.requestId].approvedBy == Some(op.actor)
        && FirstApprovals(w'.audit, op.requestId) == FirstApprovals(w.audit, op.requestId)
  {
    ApproveCases(c, w, op);
    if ReachesCompletion(c, w, op) {
      GoesThrough(c, w, op);
    }
  }

  lemma GoesThrough(c: Config, w: Flow, op: FlowOp)
    requires Structure(w.wallet) && op.FlowApprove? && ReachesCompletion(c, w, op) && Payable(w.wallet, op.requestId)
    requires w.wallet.requests[op.requestId].status == ApprovedStage1
    ensures var w' := CompleteFlow(c, w, op.requestId, op.actor, op.notes, op.coin, op.reply).0;
      && op.requestId in w'.wallet.requests && w'.wallet.requests[op.requestId].status in {Approved, Failed}
      && w'.wallet.requests[op.requestId].approvedBy == Some(op.actor)
      && FirstApprovals(w'.audit, op.requestId) == FirstApprovals(w.audit, op.requestId)
  {
    CompleteEnds(c, w, op.requestId, op.actor, op.notes, op.coin, op.reply);
    var ending := EndingOfOp(c, w, op);
    var done := Settled(w.wallet, op.requestId, ending, op.actor, op.notes);
    LoggedApprovals(w.audit, done, if ending.NoCoin? || ending.Compensated? then ExecutionFailure else ApprovedFinal, op.actor, op.requestId);
  }

  function Stranger(m: Metadata): string {
    if STAGE1_APPROVER in m && m[STAGE1_APPROVER].Text? then m[STAGE1_APPROVER].text + "'" else ""
  }

  /** Exactly the requests whose caller brought a stage1_approver can be approved by one
      person: after any run, a payable pending request gets both approvals from some one
      actor if and only if it was opened with that key. */
  lemma OnePersonSufficesIff(c: Config, ops: seq<FlowOp>, r: Id, n1: Option<string>, n2: Option<string>,
                             coin: Option<string>, finalize: bool, reply: Reply)
    requires TwoPeople(c) && Payable(FlowRun(c, ops).wallet, r) && FlowRun(c, ops).wallet.requests[r].status == Pending
    ensures (exists actor :: ApprovedByOne(c, FlowRun(c, ops), r, actor, n1, n2, coin, finalize, reply))
       <==> r in Brought(c, ops, STAGE1_APPROVER)
  {
    TwoPeopleApproved(c, ops);
    FlowRunKeeps(c, ops);
    var w := FlowRun(c, ops);
    var m := w.wallet.requests[r].metadata;
    assert ReviewedAt(w, Brought(c, ops, STAGE1_APPROVER), r);
    forall actor
      ensures ApprovedByOne(c, w, r, actor, n1, n2, coin, finalize, reply) <==> STAGE1_APPROVER in m && m[STAGE1_APPROVER] != Text(actor)
    {
      ApprovedByOneIff(c, w, r, actor, n1, n2, coin, finalize, reply);
    }
    assert STAGE1_APPROVER in m ==> m[STAGE1_APPROVER] != Text(Stranger(m)) by {
      if STAGE1_APPROVER in m && m[STAGE1_APPROVER].Text? {
        assert |Stranger(m)| == |m[STAGE1_APPROVER].text| + 1;
      }
    }
    if STAGE1_APPROVER in m {
      assert ApprovedByOne(c, w, r, Stranger(m), n1, n2, coin, finalize, reply);
    }
  }

  /** Such a run: "a" approves twice a request that came naming "b", and it is paid out. */
  lemma OnePersonExample()
    ensures var c, fail := Config(true, true, None, None), Refusing();
      var w := FlowRun(c, [Funds(Credit("u", 10, None)),
                           FlowRequest(0, 10, "u", None, map[STAGE1_APPROVER := Text("b")], None, None, 0),
                           FlowApprove(1, "a", None, None, false, fail),
                           FlowApprove(1, "a", None, None, true, fail)]);
      && OneHand(w, 1, "a") && w.wallet.requests[1].status == Approved
      && 0 in w.wallet.wallets && w.wallet.wallets[0].balance == 0
  {
    var c, fail := Config(true, true, None, None), Refusing();
    var meta := map[STAGE1_APPROVER := Text("b")];
    var op0, op1 := Funds(Credit("u", 10, None)), FlowRequest(0, 10, "u", None, meta, None, None, 0);
    var op2, op3 := FlowApprove(1, "a", None, None, false, fail), FlowApprove(1, "a", None, None, true, fail);
    FourSteps(c, op0, op1, op2, op3);
    var w2 := OneRequest(c, meta);
    ApprovedByOneIff(c, w2, 1, "a", None, None, None, true, fail);
    PlainSecond(c, w2, op2, op3, 0);
  }

  /** Without a mining orchestrator a second approval that goes through pays out. */
  lemma PlainSecond(c: Config, w: Flow, op1: FlowOp, op2: FlowOp, x: Id)
    requires TwoPeople(c) && c.attempts == None && Structure(w.wallet)
    requires op1.FlowApprove? && op2.FlowApprove? && op1.requestId == op2.requestId && !op1.finalize
    requires op1.requestId in w.wallet.requests && w.wallet.requests[op1.requestId].status == Pending
    requires w.wallet.requests[op1.requestId].walletId == x && x in w.wallet.wallets
    requires var w' := FlowStep(c, FlowStep(c, w, op1), op2);
      op1.requestId in w'.wallet.requests && w'.wallet.requests[op1.requestId].status in {Approved, Failed}
    ensures var w' := FlowStep(c, FlowStep(c, w, op1), op2);
      && w'.wallet.requests[op1.requestId].status == Approved
      && x in w'.wallet.wallets
      && w'.wallet.wallets[x].balance == w.wallet.wallets[x].balance - w.wallet.requests[op1.requestId].amount
  {
    FirstIsFree(c, w, op1);
    LastIsPlain(c, FlowStep(c, w, op1), op2, x);
  }

  lemma FirstIsFree(c: Config, w: Flow, op: FlowOp)
    requires TwoPeople(c) && Structure(w.wallet) && op.FlowApprove? && !op.finalize
    requires op.requestId in w.wallet.requests && w.wallet.requests[op.requestId].status == Pending
    ensures var w' := FlowStep(c, w, op);
      && Structure(w'.wallet) && w'.wallet.wallets == w.wallet.wallets
      && w'.wallet.requests.Keys == w.wallet.requests.Keys && w'.wallet.requests[op.requestId].status == ApprovedStage1
      && w'.wallet.requests[op.requestId].amount == w.wallet.requests[op.requestId].amount
      && w'.wallet.requests[op.requestId].walletId == w.wallet.requests[op.requestId].walletId
  {
    ApproveCases(c, w, op);
  }

  lemma LastIsPlain(c: Config, w: Flow, op: FlowOp, x: Id)
    requires TwoPeople(c) && c.attempts == None && Structure(w.wallet) && op.FlowApprove?
    requires op.requestId in w.wallet.requests && w.wallet.requests[op.requestId].status == ApprovedStage1
    requires w.wallet.requests[op.requestId].walletId == x && x in w.wallet.wallets
    requires op.requestId in FlowStep(c, w, op).wallet.requests
    requires FlowStep(c, w, op).wallet.requests[op.requestId].status in {Approved, Failed}
    ensures var w' := FlowStep(c, w, op);
      && w'.wallet.requests[op.requestId].status == Approved
      && x in w'.wallet.wallets
      && w'.wallet.wallets[x].balance == w.wallet.wallets[x].balance - w.wallet.requests[op.requestId].amount
  {
    ApproveCases(c, w, op);
    CompleteEnds(c, w, op.requestId, op.actor, op.notes, op.coin, op.reply);
    if ReachesCompletion(c, w, op) && !EndingOfOp(c, w, op).Refused? {
      PlainFigures(c, w, op);
    }
  }
}
