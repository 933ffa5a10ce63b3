/** Every call of the withdrawal workflow in full: which rule refuses it, when the miner is
    asked and for what, and what the call leaves in wallets, mining log and audit log. */
module WorkflowCalls {
  import opened Wrappers
  import opened PointWallet
  import opened PointWalletLaws
  import opened PointWalletEffects
  import opened Mining
  import opened MiningLaws
  import opened Workflow
  import opened WorkflowLaws
  import Retry
  import Risk

  // ----------------------------------------------------------- what is wanted

  /** The workflow has an orchestrator, and the call names a coin or the metadata asks for mining. */
  predicate Wanted(c: Config, m: Metadata, coin: Option<string>) {
    && c.attempts.Some?
    && (|| (coin.Some? && coin.value != "")
        || ("coin" in m && m["coin"] != Null)
        || ("provider" in m && m["provider"] == Text("hashdam")))
  }

  predicate Names(m: Metadata, actor: string) {
    "stage1_approver" in m && m["stage1_approver"] == Text(actor)
  }

  /** The step rules let the call approve finally. */
  predicate FinalStep(c: Config, q: Request, actor: string, finalize: bool) {
    c.twoStep ==>
      && q.status != Pending
      && (if q.status == ApprovedStage1 then !(c.distinct && Names(q.metadata, actor)) else finalize)
  }

  /** The request is paid out. */
  function PaidRequest(q: Request, actor: string, notes: Option<string>): Request {
    q.(status := Approved, approvedBy := Some(actor), notes := notes)
  }

  /** The wallet after paying q out, with its entry. */
  function PaidState(s: State, q: Request, done: Request): State
    requires q.walletId in s.wallets
  {
    var x := s.wallets[q.walletId];
    var now := Wallet(q.walletId, x.userId, x.balance - q.amount, x.pending - q.amount, x.status);
    State(s.wallets[q.walletId := now], s.byUser,
          s.ledger + [LedgerEntry(q.walletId, WithdrawalEntry, q.amount, now.balance, now.pending, Some(q.id))],
          s.requests[q.id := done], s.nextId)
  }

  /** The wallet after paying q out and failing it: the money is back, and the hold is taken
      off twice, not below zero. */
  function FailedState(s: State, q: Request, done: Request): State
    requires q.walletId in s.wallets
  {
    var x := s.wallets[q.walletId];
    var pending := x.pending - q.amount;
    var now := Wallet(q.walletId, x.userId, x.balance, if pending >= q.amount then pending - q.amount else 0, x.status);
    State(s.wallets[q.walletId := now], s.byUser,
          s.ledger + [LedgerEntry(q.walletId, WithdrawalEntry, q.amount, x.balance - q.amount, pending, Some(q.id)),
                      LedgerEntry(q.walletId, ReleaseEntry, q.amount, now.balance, now.pending, Some(q.id))],
          s.requests[q.id := done], s.nextId)
  }

  function AuditOf(q: Request, action: Action, actor: string, status: RequestStatus): AuditRecord {
    AuditRecord(q.id, q.walletId, action, actor, q.amount, status)
  }

  // ----------------------------------------------------------- final approvals

  /** An approval with nothing to mine, or with nothing known to mine. */
  ghost predicate PaidPlainly(w: Flow, w': Flow, r: Result<Request, FlowError>, q: Request, actor: string, notes: Option<string>, wanted: bool)
    requires q.walletId in w.wallet.wallets
  {
    var done := PaidRequest(q, actor, notes);
    && w' == Flow(PaidState(w.wallet, q, done), w.mining, w.risk,
                  w.audit + [AuditOf(q, if wanted then ExecutionFailure else ApprovedFinal, actor, Approved)])
    && r == if wanted then Failure(ExecutionFailed(CoinMissing)) else Success(done)
  }

  /** An approval the miner accepted; record is the new mining record. */
  ghost predicate PaidAndSubmitted(w: Flow, w': Flow, r: Result<Request, FlowError>, q: Request, actor: string, notes: Option<string>, record: MiningRecord)
    requires q.walletId in w.wallet.wallets
  {
    && record.withdrawId.Some?
    && var receipt := map["hashdam_withdraw_id" := Text(record.withdrawId.value), "coin" := Text(record.coin)];
    var done := PaidRequest(q, actor, notes).(metadata := q.metadata + receipt);
    && w'.wallet == PaidState(w.wallet, q, done)
    && w'.risk == w.risk && w'.audit == w.audit + [AuditOf(q, ApprovedFinal, actor, Approved)]
    && r == Success(done)
  }

  /** An approval the miner refused, with the error of the last allowed attempt. */
  ghost predicate PaidBack(w: Flow, w': Flow, r: Result<Request, FlowError>, q: Request, actor: string, notes: Option<string>,
                           answers: nat -> Result<Submission, string>, attempts: int)
    requires q.walletId in w.wallet.wallets
  {
    && r.Failure? && r.error.ExecutionFailed? && r.error.execution.MinerFailed?
    && (if attempts >= 1 then answers(attempts) == Failure(r.error.execution.reason)
        else r.error.execution.reason == "Retry exceeded attempts")
    && var done := q.(status := Failed, approvedBy := Some(actor), rejectedBy := Some(actor), notes := Some(r.error.execution.reason));
    && w'.wallet == FailedState(w.wallet, q, done)
    && w'.risk == w.risk && w'.audit == w.audit + [AuditOf(q, ExecutionFailure, actor, Failed)]
  }

  /** How a final approval of request q ends. */
  ghost predicate Finished(c: Config, w: Flow, w': Flow, r: Result<Request, FlowError>, q: Request, op: FlowOp)
    requires op.FlowApprove? && q.walletId in w.wallet.wallets
  {
    var x, coin := w.wallet.wallets[q.walletId], Symbol(op.coin, q.metadata);
    if q.status !in {Pending, ApprovedStage1} then w' == w && r == Failure(WalletRefused(InvalidWithdrawalState))
    else if x.status != Active then w' == w && r == Failure(WalletRefused(WalletSuspended))
    else if q.amount > x.balance then w' == w && r == Failure(WalletRefused(InsufficientBalance))
    else if !Wanted(c, q.metadata, op.coin) then PaidPlainly(w, w', r, q, op.actor, op.notes, false)
    else if coin.None? then PaidPlainly(w, w', r, q, op.actor, op.notes, true)
    else
      && Recorded(w.mining, w'.mining, x.userId, coin.value, q.amount, c.attempts.value, op.reply)
      && if w'.mining[|w.mining|].submitted
         then PaidAndSubmitted(w, w', r, q, op.actor, op.notes, w'.mining[|w.mining|])
         else PaidBack(w, w', r, q, op.actor, op.notes, op.reply(coin.value, q.amount), c.attempts.value)
  }

  /** What an approval call does. */
  ghost predicate ApprovalDone(c: Config, w: Flow, w': Flow, r: Result<Request, FlowError>, op: FlowOp)
    requires op.FlowApprove?
  {
    if op.requestId !in w.wallet.requests then w' == w && r == Failure(WalletRefused(WithdrawalNotFound))
    else
      var q := w.wallet.requests[op.requestId];
      && q.walletId in w.wallet.wallets
      && if c.twoStep && q.status == Pending then
           if op.finalize then w' == w && r == Failure(SecondApprovalRequired)
           else
             && r.Success? && r.value == q.(status := ApprovedStage1, metadata := r.value.metadata)
             && Stage1Marked(q.metadata, map["stage" := Text("stage1")], op.actor, op.notes, r.value.metadata)
             && w' == w.(wallet := w.wallet.(requests := w.wallet.requests[op.requestId := r.value]),
                         audit := w.audit + [AuditOf(q, ApprovedFirst, op.actor, ApprovedStage1)])
         else if c.twoStep && q.status == ApprovedStage1 && c.distinct && Names(q.metadata, op.actor) then
           w' == w && r == Failure(SameApprover)
         else if c.twoStep && q.status != ApprovedStage1 && !op.finalize then w' == w && r == Failure(FinalizeRequired)
         else Finished(c, w, w', r, q, op)
  }

  function Answer(c: Config, w: Flow, op: FlowOp): (Flow, Result<Request, FlowError>)
    requires op.FlowApprove?
  {
    ApproveFlow(c, w, op.requestId, op.actor, op.notes, op.coin, op.finalize, op.reply)
  }

  /** The ending of an approval the wallet accepts. */
  lemma EndingIs(c: Config, w: Flow, op: FlowOp)
    requires Structure(w.wallet) && op.FlowApprove? && Payable(w.wallet, op.requestId)
    ensures var q := w.wallet.requests[op.requestId];
      var ending, coin := EndingOfOp(c, w, op), Symbol(op.coin, q.metadata);
      if !Wanted(c, q.metadata, op.coin) then ending == Plain
      else if coin.None? then ending == NoCoin
      else
        var outcome := Retry.Run(op.reply(coin.value, q.amount), c.attempts.value);
        if outcome.Returned? then ending == Submitted(outcome.value)
        else ending == Compensated(if outcome.Raised? then outcome.error else "Retry exceeded attempts")
  {
    ApproveEffect(w.wallet, op.requestId, op.actor, op.notes);
  }

  lemma PlainDone(c: Config, w: Flow, op: FlowOp, w': Flow, r: Result<Request, FlowError>)
    requires Structure(w.wallet) && op.FlowApprove? && Payable(w.wallet, op.requestId)
    requires (w', r) == CompleteFlow(c, w, op.requestId, op.actor, op.notes, op.coin, op.reply)
    requires EndingOfOp(c, w, op).Plain? || EndingOfOp(c, w, op).NoCoin?
    ensures PaidPlainly(w, w', r, w.wallet.requests[op.requestId], op.actor, op.notes, EndingOfOp(c, w, op).NoCoin?)
  {
    ApproveEffect(w.wallet, op.requestId, op.actor, op.notes);
    PlainResult(c, w, op.requestId, op.actor, op.notes, op.coin, op.reply);
  }

  lemma SubmittedWallet(s: State, id: Id, actor: string, notes: Option<string>, submission: Submission, done: Request)
    requires Structure(s) && Payable(s, id)
    requires done == PaidRequest(s.requests[id], actor, notes).(metadata := s.requests[id].metadata + Receipt(submission))
    ensures SettledWallet(s, id, Submitted(submission), actor, notes) == PaidState(s, s.requests[id], done)
  {
    ApproveEffect(s, id, actor, notes);
  }

  lemma SubmittedDone(c: Config, w: Flow, op: FlowOp, w': Flow, r: Result<Request, FlowError>, coin: string)
    requires Structure(w.wallet) && op.FlowApprove? && Payable(w.wallet, op.requestId)
    requires (w', r) == CompleteFlow(c, w, op.requestId, op.actor, op.notes, op.coin, op.reply)
    requires c.attempts.Some? && Symbol(op.coin, w.wallet.requests[op.requestId].metadata) == Some(coin)
    requires var outcome := Retry.Run(op.reply(coin, w.wallet.requests[op.requestId].amount), c.attempts.value);
      outcome.Returned? && EndingOfOp(c, w, op) == Submitted(outcome.value)
    ensures var q := w.wallet.requests[op.requestId];
      && Recorded(w.mining, w'.mining, w.wallet.wallets[q.walletId].userId, coin, q.amount, c.attempts.value, op.reply)
      && w'.mining[|w.mining|].submitted
      && PaidAndSubmitted(w, w', r, q, op.actor, op.notes, w'.mining[|w.mining|])
  {
    var q := w.wallet.requests[op.requestId];
    var submission := EndingOfOp(c, w, op).submission;
    SubmitLogs(w.mining, c.attempts.value, w.wallet.wallets[q.walletId].userId, coin, q.amount, op.reply);
    CompleteEnds(c, w, op.requestId, op.actor, op.notes, op.coin, op.reply);
    SubmittedWallet(w.wallet, op.requestId, op.actor, op.notes, submission,
                    PaidRequest(q, op.actor, op.notes).(metadata := q.metadata + Receipt(submission)));
  }

  lemma CompensatedWallet(s: State, id: Id, actor: string, notes: Option<string>, reason: string, done: Request)
    requires Structure(s) && Payable(s, id)
    requires done == s.requests[id].(status := Failed, approvedBy := Some(actor), rejectedBy := Some(actor), notes := Some(reason))
    ensures SettledWallet(s, id, Compensated(reason), actor, notes) == FailedState(s, s.requests[id], done)
  {
    ApproveEffect(s, id, actor, notes);
    ApproveKeepsStructure(s, id, actor, notes);
    FailEffect(ApproveSpec(s, id, actor, notes).0, id, actor, Some(reason));
  }

  lemma ApproveKeepsStructure(s: State, id: Id, actor: string, notes: Option<string>)
    requires Structure(s)
    ensures Structure(ApproveSpec(s, id, actor, notes).0)
  {
  }

  lemma CompensatedDone(c: Config, w: Flow, op: FlowOp, w': Flow, r: Result<Request, FlowError>, coin: string)
    requires Structure(w.wallet) && op.FlowApprove? && Payable(w.wallet, op.requestId)
    requires (w', r) == CompleteFlow(c, w, op.requestId, op.actor, op.notes, op.coin, op.reply)
    requires c.attempts.Some? && Symbol(op.coin, w.wallet.requests[op.requestId].metadata) == Some(coin)
    requires var outcome := Retry.Run(op.reply(coin, w.wallet.requests[op.requestId].amount), c.attempts.value);
      !outcome.Returned? && EndingOfOp(c, w, op) == Compensated(if outcome.Raised? then outcome.error else "Retry exceeded attempts")
    ensures var q := w.wallet.requests[op.requestId];
      && Recorded(w.mining, w'.mining, w.wallet.wallets[q.walletId].userId, coin, q.amount, c.attempts.value, op.reply)
      && !w'.mining[|w.mining|].submitted
      && PaidBack(w, w', r, q, op.actor, op.notes, op.reply(coin, q.amount), c.attempts.value)
  {
    var q := w.wallet.requests[op.requestId];
    var reason := EndingOfOp(c, w, op).reason;
    Retry.RunMeaning(op.reply(coin, q.amount), c.attempts.value);
    SubmitLogs(w.mining, c.attempts.value, w.wallet.wallets[q.walletId].userId, coin, q.amount, op.reply);
    CompleteEnds(c, w, op.requestId, op.actor, op.notes, op.coin, op.reply);
    CompensatedWallet(w.wallet, op.requestId, op.actor, op.notes, reason,
                      q.(status := Failed, approvedBy := Some(op.actor), rejectedBy := Some(op.actor), notes := Some(reason)));
  }

  lemma FinishExact(c: Config, w: Flow, op: FlowOp, w': Flow, r: Result<Request, FlowError>)
    requires Structure(w.wallet) && op.FlowApprove? && op.requestId in w.wallet.requests
    requires (w', r) == CompleteFlow(c, w, op.requestId, op.actor, op.notes, op.coin, op.reply)
    ensures w.wallet.requests[op.requestId].walletId in w.wallet.wallets
    ensures Finished(c, w, w', r, w.wallet.requests[op.requestId], op)
  {
    var q := w.wallet.requests[op.requestId];
    ApproveEffect(w.wallet, op.requestId, op.actor, op.notes);
    if Payable(w.wallet, op.requestId) {
      EndingIs(c, w, op);
      var coin := Symbol(op.coin, q.metadata);
      if !Wanted(c, q.metadata, op.coin) || coin.None? {
        PlainDone(c, w, op, w', r);
      } else if Retry.Run(op.reply(coin.value, q.amount), c.attempts.value).Returned? {
        SubmittedDone(c, w, op, w', r, coin.value);
      } else {
        CompensatedDone(c, w, op, w', r, coin.value);
      }
    }
  }

  lemma MarkExact(c: Config, w: Flow, op: FlowOp)
    requires Structure(w.wallet) && op.FlowApprove? && op.requestId in w.wallet.requests
    requires c.twoStep && w.wallet.requests[op.requestId].status == Pending && !op.finalize
    ensures ApprovalDone(c, w, Answer(c, w, op).0, Answer(c, w, op).1, op)
  {
    Stage1Effect(w.wallet, op.requestId, op.actor, op.notes, map["stage" := Text("stage1")]);
  }

  /** An approval call in full: the rules in their order, the first approval, and every way a
      final approval can end. */
  lemma ApproveExact(c: Config, w: Flow, op: FlowOp)
    requires Structure(w.wallet) && op.FlowApprove?
    ensures ApprovalDone(c, w, Answer(c, w, op).0, Answer(c, w, op).1, op)
  {
    if op.requestId in w.wallet.requests {
      var q := w.wallet.requests[op.requestId];
      if c.twoStep && q.status == Pending && !op.finalize {
        MarkExact(c, w, op);
      } else if FinalStep(c, q, op.actor, op.finalize) {
        var (w', r) := Answer(c, w, op);
        assert (w', r) == CompleteFlow(c, w, op.requestId, op.actor, op.notes, op.coin, op.reply);
        FinishExact(c, w, op, w', r);
      }
    }
  }

  /** The miner is asked, and one mining record logged, exactly when the rules let the call
      approve finally, the wallet pays, mining is wanted and a coin is known; otherwise the
      mining log stays. */
  lemma MinerAskedIff(c: Config, w: Flow, op: FlowOp)
    requires Structure(w.wallet) && op.FlowApprove?
    ensures var log, log' := w.mining, Answer(c, w, op).0.mining;
      && log <= log' && |log'| <= |log| + 1
      && (|log'| == |log| + 1 <==>
            && Payable(w.wallet, op.requestId)
            && var q := w.wallet.requests[op.requestId];
            && FinalStep(c, q, op.actor, op.finalize)
            && Wanted(c, q.metadata, op.coin) && Symbol(op.coin, q.metadata).Some?)
  {
    ApproveExact(c, w, op);
  }
}
