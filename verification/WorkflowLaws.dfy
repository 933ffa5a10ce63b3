/** Laws of the withdrawal workflow: how an approval can end, what every call writes, and
    agreement of the audit log with the requests. */
module WorkflowLaws {
  import opened Wrappers
  import opened PointWallet
  import opened PointWalletLaws
  import opened Mining
  import opened Workflow
  import Retry
  import Risk

  // ----------------------------------------------------- how an approval ends

  datatype Ending =
    | Refused(error: WalletError)       // a wallet guard refused the approval
    | Plain                             // approved, nothing to mine
    | NoCoin                            // approved, execution wanted, but no coin is named
    | Submitted(submission: Submission) // approved and submitted to the miner
    | Compensated(reason: string)       // approved, refused by the miner, failed again

  function EndingOf(c: Config, w: Flow, requestId: Id, actor: string, notes: Option<string>, coin: Option<string>, reply: Reply): Ending {
    match ApproveSpec(w.wallet, requestId, actor, notes).1
    case Failure(error) => Refused(error)
    case Success(r) =>
      if !ShouldExecute(c, r, coin) then Plain
      else if CoinSymbol(coin, r.metadata).None? then NoCoin
      else
        match Retry.Run(reply(CoinSymbol(coin, r.metadata).value, r.amount), c.attempts.value)
        case Returned(s, _) => Submitted(s)
        case Raised(e, _) => Compensated(e)
        case NoAttempts => Compensated("Retry exceeded attempts")
  }

  /** The request as stored after an ending other than Refused. */
  function Settled(s: State, requestId: Id, ending: Ending, actor: string, notes: Option<string>): Request
    requires requestId in s.requests
  {
    var approved := s.requests[requestId].(status := Approved, approvedBy := Some(actor), notes := notes);
    match ending
    case Submitted(submission) => approved.(metadata := approved.metadata + Receipt(submission))
    case Compensated(reason) => approved.(status := Failed, rejectedBy := Some(actor), notes := Some(reason))
    case _ => approved
  }

  /** The wallet state before the request's last relabelling: the approval, then for a
      compensated ending the failure, then for a submitted one the receipt. */
  function SettledWallet(s: State, requestId: Id, ending: Ending, actor: string, notes: Option<string>): State {
    var s1 := ApproveSpec(s, requestId, actor, notes).0;
    match ending
    case Submitted(submission) => AnnotateSpec(s1, requestId, Receipt(submission)).0
    case Compensated(reason) => FailSpec(s1, requestId, actor, Some(reason)).0
    case _ => s1
  }

  function MiningLog(w: Flow, requestId: Id, ending: Ending, coin: Option<string>): seq<MiningRecord>
    requires requestId in w.wallet.requests && w.wallet.requests[requestId].walletId in w.wallet.wallets
    requires ending.Compensated? ==> CoinSymbol(coin, w.wallet.requests[requestId].metadata).Some?
  {
    var r := w.wallet.requests[requestId];
    var user := w.wallet.wallets[r.walletId].userId;
    match ending
    case Submitted(s) => w.mining + [MiningRecord(user, Some(s.withdrawId), s.coin, s.amount, true)]
    case Compensated(_) => w.mining + [MiningRecord(user, None, CoinSymbol(coin, r.metadata).value, r.amount, false)]
    case _ => w.mining
  }

  /** What an ending other than Refused leaves behind, the figures of the wallet aside. */
  ghost predicate EndsAs(w: Flow, w': Flow, requestId: Id, ending: Ending, actor: string, notes: Option<string>, coin: Option<string>) {
    && requestId in w.wallet.requests && w.wallet.requests[requestId].walletId in w.wallet.wallets
    && Holding(w.wallet.requests[requestId].status)
    && (ending.Compensated? ==> CoinSymbol(coin, w.wallet.requests[requestId].metadata).Some?)
    && var r := Settled(w.wallet, requestId, ending, actor, notes);
    && r.id == requestId
    && w'.wallet.requests == w.wallet.requests[requestId := r]
    && SameOwners(w.wallet.wallets, w'.wallet.wallets)
    && w'.mining == MiningLog(w, requestId, ending, coin)
    && w'.risk == w.risk
    && w'.audit == Logged(w.audit, r, if ending.NoCoin? || ending.Compensated? then ExecutionFailure else ApprovedFinal, actor)
  }

  ghost predicate SameOwners(was: map<Id, Wallet>, now: map<Id, Wallet>) {
    forall x :: x in was ==> x in now && now[x].userId == was[x].userId
  }

  function Verdict(ending: Ending, r: Request): Result<Request, FlowError> {
    match ending
    case Refused(error) => Failure(WalletRefused(error))
    case NoCoin => Failure(ExecutionFailed(CoinMissing))
    case Compensated(reason) => Failure(ExecutionFailed(MinerFailed(reason)))
    case _ => Success(r)
  }

  lemma ApprovedRequest(s: State, r: Id, actor: string, notes: Option<string>)
    requires Structure(s) && ApproveSpec(s, r, actor, notes).1.Success?
    ensures var (s1, approved) := ApproveSpec(s, r, actor, notes);
      && r in s.requests && Holding(s.requests[r].status) && s.requests[r].walletId in s.wallets
      && approved.value == s.requests[r].(status := Approved, approvedBy := Some(actor), notes := notes)
      && approved.value.id == r
      && s1.requests == s.requests[r := approved.value]
      && SameOwners(s.wallets, s1.wallets)
      && s1.wallets[s.requests[r].walletId].id == s.requests[r].walletId
  {
  }

  lemma FailedRequest(s: State, r: Id, actor: string, reason: Option<string>)
    requires r in s.requests && s.requests[r].status == Approved && s.requests[r].id == r
    requires s.requests[r].walletId in s.wallets && s.wallets[s.requests[r].walletId].id == s.requests[r].walletId
    ensures var (s1, failed) := FailSpec(s, r, actor, reason);
      && failed.Success?
      && s1.requests == s.requests[r := s.requests[r].(status := Failed, rejectedBy := Some(actor), notes := reason)]
      && SameOwners(s.wallets, s1.wallets)
  {
  }

  /** The executions of an approved request: no coin, accepted by the miner, or refused. */
  lemma ExecuteEnds(attempts: int, w: Flow, r: Id, actor: string, notes: Option<string>, coin: Option<string>, reply: Reply)
    requires r in w.wallet.requests && w.wallet.requests[r].status == Approved && w.wallet.requests[r].id == r
    requires var x := w.wallet.requests[r].walletId; x in w.wallet.wallets && w.wallet.wallets[x].id == x
    ensures var q := w.wallet.requests[r];
      var user, symbol := w.wallet.wallets[q.walletId].userId, CoinSymbol(coin, q.metadata);
      var result := ExecuteFlow(attempts, w, r, actor, notes, coin, reply);
      if symbol.None? then
        result == (w.(audit := Logged(w.audit, q, ExecutionFailure, actor)), Failure(ExecutionFailed(CoinMissing)))
      else
        match Retry.Run(reply(symbol.value, q.amount), attempts)
        case Returned(s, _) =>
          var done := q.(metadata := q.metadata + Receipt(s));
          result == (Flow(AnnotateSpec(w.wallet, r, Receipt(s)).0, w.mining + [MiningRecord(user, Some(s.withdrawId), s.coin, s.amount, true)],
                          w.risk, Logged(w.audit, done, ApprovedFinal, actor)), Success(done))
        case outcome =>
          var reason := if outcome.Raised? then outcome.error else "Retry exceeded attempts";
          var failed := q.(status := Failed, rejectedBy := Some(actor), notes := Some(reason));
          result == (Flow(FailSpec(w.wallet, r, actor, Some(reason)).0, w.mining + [MiningRecord(user, None, symbol.value, q.amount, false)],
                          w.risk, Logged(w.audit, failed, ExecutionFailure, actor)), Failure(ExecutionFailed(MinerFailed(reason))))
  {
    var q := w.wallet.requests[r];
    var symbol := CoinSymbol(coin, q.metadata);
    if symbol.Some? {
      match Retry.Run(reply(symbol.value, q.amount), attempts)
      case Returned(s, _) =>
      case Raised(e, _) => FailedRequest(w.wallet, r, actor, Some(e));
      case NoAttempts => FailedRequest(w.wallet, r, actor, Some("Retry exceeded attempts"));
    }
  }

  ghost predicate EndsWell(c: Config, w: Flow, requestId: Id, actor: string, notes: Option<string>, coin: Option<string>, reply: Reply) {
    var (w', result) := CompleteFlow(c, w, requestId, actor, notes, coin, reply);
    var ending := EndingOf(c, w, requestId, actor, notes, coin, reply);
    if ending.Refused? then w' == w && result == Failure(WalletRefused(ending.error))
    else
      && EndsAs(w, w', requestId, ending, actor, notes, coin)
      && w'.wallet == SettledWallet(w.wallet, requestId, ending, actor, notes)
      && result == Verdict(ending, Settled(w.wallet, requestId, ending, actor, notes))
  }

  lemma PlainAs(w: Flow, w': Flow, requestId: Id, ending: Ending, actor: string, notes: Option<string>, coin: Option<string>)
    requires Structure(w.wallet) && (ending.Plain? || ending.NoCoin?)
    requires ApproveSpec(w.wallet, requestId, actor, notes).1.Success?
    requires var (s1, approved) := ApproveSpec(w.wallet, requestId, actor, notes);
      w' == w.(wallet := s1, audit := Logged(w.audit, approved.value, if ending.NoCoin? then ExecutionFailure else ApprovedFinal, actor))
    ensures EndsAs(w, w', requestId, ending, actor, notes, coin)
    ensures ApproveSpec(w.wallet, requestId, actor, notes).1.value == Settled(w.wallet, requestId, ending, actor, notes)
  {
    ApprovedRequest(w.wallet, requestId, actor, notes);
  }

  lemma PlainResult(c: Config, w: Flow, requestId: Id, actor: string, notes: Option<string>, coin: Option<string>, reply: Reply)
    requires Structure(w.wallet)
    requires var ending := EndingOf(c, w, requestId, actor, notes, coin, reply); ending.Plain? || ending.NoCoin?
    ensures var (s1, approved) := ApproveSpec(w.wallet, requestId, actor, notes);
      var noCoin := EndingOf(c, w, requestId, actor, notes, coin, reply).NoCoin?;
      approved.Success? && CompleteFlow(c, w, requestId, actor, notes, coin, reply) ==
        (w.(wallet := s1, audit := Logged(w.audit, approved.value, if noCoin then ExecutionFailure else ApprovedFinal, actor)),
         if noCoin then Failure(ExecutionFailed(CoinMissing)) else Success(approved.value))
  {
    ApprovedRequest(w.wallet, requestId, actor, notes);
  }

  lemma PlainEnds(c: Config, w: Flow, requestId: Id, actor: string, notes: Option<string>, coin: Option<string>, reply: Reply)
    requires Structure(w.wallet)
    requires var ending := EndingOf(c, w, requestId, actor, notes, coin, reply); ending.Refused? || ending.Plain? || ending.NoCoin?
    ensures EndsWell(c, w, requestId, actor, notes, coin, reply)
  {
    var ending := EndingOf(c, w, requestId, actor, notes, coin, reply);
    if !ending.Refused? {
      PlainResult(c, w, requestId, actor, notes, coin, reply);
      PlainAs(w, CompleteFlow(c, w, requestId, actor, notes, coin, reply).0, requestId, ending, actor, notes, coin);
    }
  }

  lemma SubmittedEnds(c: Config, w: Flow, requestId: Id, actor: string, notes: Option<string>, coin: Option<string>, reply: Reply)
    requires Structure(w.wallet) && EndingOf(c, w, requestId, actor, notes, coin, reply).Submitted?
    ensures EndsWell(c, w, requestId, actor, notes, coin, reply)
  {
    ApprovedRequest(w.wallet, requestId, actor, notes);
    var w1 := w.(wallet := ApproveSpec(w.wallet, requestId, actor, notes).0);
    ExecuteEnds(c.attempts.value, w1, requestId, actor, notes, coin, reply);
    assert CompleteFlow(c, w, requestId, actor, notes, coin, reply) == ExecuteFlow(c.attempts.value, w1, requestId, actor, notes, coin, reply);
  }

  lemma CompensatedAs(w: Flow, w': Flow, requestId: Id, reason: string, actor: string, notes: Option<string>, coin: Option<string>, user: string)
    requires requestId in w.wallet.requests && w.wallet.requests[requestId].walletId in w.wallet.wallets
    requires w.wallet.requests[requestId].id == requestId && Holding(w.wallet.requests[requestId].status)
    requires user == w.wallet.wallets[w.wallet.requests[requestId].walletId].userId
    requires CoinSymbol(coin, w.wallet.requests[requestId].metadata).Some?
    requires SameOwners(w.wallet.wallets, w'.wallet.wallets)
    requires var q := w.wallet.requests[requestId];
      var failed := Settled(w.wallet, requestId, Compensated(reason), actor, notes);
      && w'.wallet.requests == w.wallet.requests[requestId := failed]
      && w'.mining == w.mining + [MiningRecord(user, None, CoinSymbol(coin, q.metadata).value, q.amount, false)]
      && w'.risk == w.risk && w'.audit == Logged(w.audit, failed, ExecutionFailure, actor)
    ensures EndsAs(w, w', requestId, Compensated(reason), actor, notes, coin)
  {
  }

  lemma CompensatedResult(c: Config, w: Flow, requestId: Id, actor: string, notes: Option<string>, coin: Option<string>, reply: Reply, s1: State)
    requires Structure(w.wallet) && EndingOf(c, w, requestId, actor, notes, coin, reply).Compensated?
    requires s1 == ApproveSpec(w.wallet, requestId, actor, notes).0
    ensures requestId in w.wallet.requests && w.wallet.requests[requestId].walletId in w.wallet.wallets
    ensures CoinSymbol(coin, w.wallet.requests[requestId].metadata).Some?
    ensures var reason := EndingOf(c, w, requestId, actor, notes, coin, reply).reason;
      var q, failed := w.wallet.requests[requestId], Settled(w.wallet, requestId, Compensated(reason), actor, notes);
      CompleteFlow(c, w, requestId, actor, notes, coin, reply) ==
        (Flow(FailSpec(s1, requestId, actor, Some(reason)).0,
              w.mining + [MiningRecord(w.wallet.wallets[q.walletId].userId, None, CoinSymbol(coin, q.metadata).value, q.amount, false)],
              w.risk, Logged(w.audit, failed, ExecutionFailure, actor)), Failure(ExecutionFailed(MinerFailed(reason))))
  {
    ApprovedRequest(w.wallet, requestId, actor, notes);
    var w1 := w.(wallet := s1);
    ExecuteEnds(c.attempts.value, w1, requestId, actor, notes, coin, reply);
    assert CompleteFlow(c, w, requestId, actor, notes, coin, reply) == ExecuteFlow(c.attempts.value, w1, requestId, actor, notes, coin, reply);
  }

  lemma CompensatedEnds(c: Config, w: Flow, requestId: Id, actor: string, notes: Option<string>, coin: Option<string>, reply: Reply)
    requires Structure(w.wallet) && EndingOf(c, w, requestId, actor, notes, coin, reply).Compensated?
    ensures EndsWell(c, w, requestId, actor, notes, coin, reply)
  {
    var reason := EndingOf(c, w, requestId, actor, notes, coin, reply).reason;
    var s1 := ApproveSpec(w.wallet, requestId, actor, notes).0;
    ApprovedRequest(w.wallet, requestId, actor, notes);
    CompensatedResult(c, w, requestId, actor, notes, coin, reply, s1);
    FailedRequest(s1, requestId, actor, Some(reason));
    CompensatedAs(w, CompleteFlow(c, w, requestId, actor, notes, coin, reply).0, requestId, reason, actor, notes, coin,
                  w.wallet.wallets[w.wallet.requests[requestId].walletId].userId);
  }

  /** The five ways a final approval can end, with everything each of them changes. */
  lemma CompleteEnds(c: Config, w: Flow, requestId: Id, actor: string, notes: Option<string>, coin: Option<string>, reply: Reply)
    requires Structure(w.wallet)
    ensures EndsWell(c, w, requestId, actor, notes, coin, reply)
  {
    match EndingOf(c, w, requestId, actor, notes, coin, reply)
    case Submitted(_) => SubmittedEnds(c, w, requestId, actor, notes, coin, reply);
    case Compensated(_) => CompensatedEnds(c, w, requestId, actor, notes, coin, reply);
    case _ => PlainEnds(c, w, requestId, actor, notes, coin, reply);
  }

  /** What the approval did to the money: deducted once when it stands, and exactly given
      back when the miner failed.  Without a coin the call fails, yet the deduction stands. */
  lemma ApprovalMoney(c: Config, w: Flow, requestId: Id, actor: string, notes: Option<string>, coin: Option<string>, reply: Reply)
    requires Structure(w.wallet)
    ensures var ending := EndingOf(c, w, requestId, actor, notes, coin, reply);
      var (w', result) := CompleteFlow(c, w, requestId, actor, notes, coin, reply);
      && w'.wallet.wallets.Keys == w.wallet.wallets.Keys
      && (forall x :: x in w.wallet.wallets && (requestId in w.wallet.requests ==> x != w.wallet.requests[requestId].walletId)
            ==> w'.wallet.wallets[x] == w.wallet.wallets[x])
      && (!ending.Refused? ==>
            && requestId in w.wallet.requests
            && var r := w.wallet.requests[requestId];
            && r.walletId in w.wallet.wallets
            && w'.wallet.wallets[r.walletId].balance
                 == w.wallet.wallets[r.walletId].balance - (if ending.Compensated? then 0 else r.amount))
  {
    CompleteEnds(c, w, requestId, actor, notes, coin, reply);
  }

  /** A final approval that raises leaves every balance as it was if and only if it is not
      the one case in which execution is wanted but no coin is named. */
  lemma RaisedApprovalRestoresIff(c: Config, w: Flow, requestId: Id, actor: string, notes: Option<string>, coin: Option<string>, reply: Reply)
    requires Structure(w.wallet)
    requires CompleteFlow(c, w, requestId, actor, notes, coin, reply).1.Failure?
    ensures var w' := CompleteFlow(c, w, requestId, actor, notes, coin, reply).0;
      var restored := forall x :: x in w.wallet.wallets ==>
                        x in w'.wallet.wallets && w'.wallet.wallets[x].balance == w.wallet.wallets[x].balance;
      var approved := ApproveSpec(w.wallet, requestId, actor, notes).1;
      restored <==> !(approved.Success? && ShouldExecute(c, approved.value, coin) && CoinSymbol(coin, approved.value.metadata).None?)
  {
    CompleteEnds(c, w, requestId, actor, notes, coin, reply);
    ApprovalMoney(c, w, requestId, actor, notes, coin, reply);
  }

  /** After a miner failure pending is exact again if and only if no other request was on hold. */
  lemma MinerFailureHolds(c: Config, w: Flow, requestId: Id, actor: string, notes: Option<string>, coin: Option<string>, reply: Reply)
    requires Inv(w.wallet) && PendingExact(w.wallet)
    requires EndingOf(c, w, requestId, actor, notes, coin, reply).Compensated?
    ensures requestId in w.wallet.requests
    ensures var r := w.wallet.requests[requestId];
      var w' := CompleteFlow(c, w, requestId, actor, notes, coin, reply).0;
      PendingExact(w'.wallet) <==> Holds(w.wallet, r.walletId) == r.amount
  {
    CompleteEnds(c, w, requestId, actor, notes, coin, reply);
    var reason := EndingOf(c, w, requestId, actor, notes, coin, reply).reason;
    ApproveThenFailExact(w.wallet, requestId, actor, notes, Some(reason));
  }

  // --------------------------------------------- the wallet under the workflow

  lemma CompleteKeepsInv(c: Config, w: Flow, requestId: Id, actor: string, notes: Option<string>, coin: Option<string>, reply: Reply)
    requires Inv(w.wallet)
    ensures Inv(CompleteFlow(c, w, requestId, actor, notes, coin, reply).0.wallet)
  {
    CompleteEnds(c, w, requestId, actor, notes, coin, reply);
    ApproveKeeps(w.wallet, requestId, actor, notes);
    var s1 := ApproveSpec(w.wallet, requestId, actor, notes).0;
    match EndingOf(c, w, requestId, actor, notes, coin, reply)
    case Submitted(submission) => AnnotateKeeps(s1, requestId, Receipt(submission));
    case Compensated(reason) => FailKeeps(s1, requestId, actor, Some(reason));
    case _ =>
  }

  lemma ScreenKeepsInv(c: Config, w: Flow, r: Request, context: Risk.Context, now: int)
    requires Inv(w.wallet)
    ensures Inv(ScreenFlow(c, w, r, context, now).0.wallet)
  {
    var notes := if r.id in w.wallet.requests then w.wallet.requests[r.id].notes else None;
    ReleaseKeeps(w.wallet, r.id, Cancelled, RISK_SYSTEM, notes);
    assert CancelSpec(w.wallet, r.id, RISK_SYSTEM) == ReleaseSpec(w.wallet, r.id, Cancelled, RISK_SYSTEM, notes);
    var wallet := ScreenFlow(c, w, r, context, now).0.wallet;
    assert wallet == w.wallet || wallet == CancelSpec(w.wallet, r.id, RISK_SYSTEM).0;
  }

  lemma RequestFlowKeepsInv(c: Config, w: Flow, op: FlowOp)
    requires Inv(w.wallet) && op.FlowRequest?
    ensures Inv(FlowStep(c, w, op).wallet)
  {
    RequestKeeps(w.wallet, op.walletId, op.amount, op.actor, op.reference, op.metadata);
    var (s1, requested) := RequestSpec(w.wallet, op.walletId, op.amount, op.actor, op.reference, op.metadata);
    if requested.Success? {
      var r := requested.value;
      ScreenKeepsInv(c, w.(wallet := s1, audit := Logged(w.audit, r, Requested, op.actor)), r,
                     Risk.Context(r.id, op.actor, op.amount, op.ip, op.device), op.now);
    }
  }

  lemma ApproveFlowKeepsInv(c: Config, w: Flow, op: FlowOp)
    requires Inv(w.wallet) && op.FlowApprove?
    ensures Inv(FlowStep(c, w, op).wallet)
  {
    Stage1Keeps(w.wallet, op.requestId, op.actor, op.notes, STAGE);
    CompleteKeepsInv(c, w, op.requestId, op.actor, op.notes, op.coin, op.reply);
  }

  lemma ReleaseFlowKeepsInv(c: Config, w: Flow, op: FlowOp)
    requires Inv(w.wallet) && (op.FlowReject? || op.FlowCancel?)
    ensures Inv(FlowStep(c, w, op).wallet)
  {
    match op
    case FlowReject(r, actor, notes) => ReleaseKeeps(w.wallet, r, Rejected, actor, notes);
    case FlowCancel(r, actor) =>
      ReleaseKeeps(w.wallet, r, Cancelled, actor, if r in w.wallet.requests then w.wallet.requests[r].notes else None);
  }

  lemma FundsKeepInv(c: Config, w: Flow, op: FlowOp)
    requires Inv(w.wallet) && op.Funds?
    ensures Inv(FlowStep(c, w, op).wallet)
  {
    StepKeeps(w.wallet, op.op);
  }

  /** Every workflow call keeps what every wallet call keeps. */
  lemma FlowStepKeeps(c: Config, w: Flow, op: FlowOp)
    requires Inv(w.wallet)
    ensures Inv(FlowStep(c, w, op).wallet)
  {
    if op.FlowRequest? {
      RequestFlowKeepsInv(c, w, op);
    } else if op.FlowApprove? {
      ApproveFlowKeepsInv(c, w, op);
    } else if op.Funds? {
      FundsKeepInv(c, w, op);
    } else {
      ReleaseFlowKeepsInv(c, w, op);
    }
  }

  lemma {:induction false} FlowRunKeeps(c: Config, ops: seq<FlowOp>)
    ensures Inv(FlowRun(c, ops).wallet)
  {
    if |ops| == 0 {
      RunKeeps([]);
    } else {
      FlowRunKeeps(c, ops[..|ops| - 1]);
      FlowStepKeeps(c, FlowRun(c, ops[..|ops| - 1]), ops[|ops| - 1]);
    }
  }

  // ----------------------------------------------------------- what a call writes

  /** A call changes the requests in one of four ways, each mirrored in the audit log. */
  datatype Change =
    | Nothing
    | Opened(r: Request)                               // a new pending request, perhaps flagged
    | OpenedAndBlocked(r: Request, done: Request)      // a new request cancelled at once
    | Moved(r: Request, action: Action, actor: string, receipt: Option<MiningRecord>) // a held request changed

  /** How a held request may change, and what the configuration demands of it.  A receipt
      is the submitted mining record of an approval that was executed. */
  ghost predicate Lawful(c: Config, was: Request, now: Request, action: Action, actor: string, receipt: Option<MiningRecord>) {
    && Holding(was.status) && now.id == was.id && now.walletId == was.walletId && now.amount == was.amount
    && action !in {Requested, Flagged}
    && (action == ApprovedFirst <==> now.status == ApprovedStage1)
    && (now.status in {Approved, Failed} ==> now.approvedBy == Some(actor) && FinalAllowed(c, was, actor))
    && (now.status in {Rejected, Cancelled, ApprovedStage1} ==> was.status == Pending)
    && now.status != Pending
    && (if receipt.Some? then
          && now.status == Approved && receipt.value.submitted && receipt.value.withdrawId.Some?
          && now.metadata == was.metadata
                             + map[WITHDRAW_ID := Text(receipt.value.withdrawId.value), COIN := Text(receipt.value.coin)]
        else if now.status == ApprovedStage1 then
          exists notes :: now.metadata == Stage1Metadata(was.metadata, STAGE, actor, notes)
        else now.metadata == was.metadata)
  }

  /** With two steps only a first-approved request may be approved finally, and with
      distinct approvers not by the first approver its metadata names. */
  predicate FinalAllowed(c: Config, was: Request, actor: string) {
    c.twoStep ==>
      && was.status == ApprovedStage1
      && !(c.distinct && STAGE1_APPROVER in was.metadata && was.metadata[STAGE1_APPROVER] == Text(actor))
  }

  function ReceiptOf(change: Change): seq<MiningRecord> {
    if change.Moved? && change.receipt.Some? then [change.receipt.value] else []
  }

  ghost predicate Mirrors(c: Config, w: Flow, w': Flow, change: Change) {
    && SameOwners(w.wallet.wallets, w'.wallet.wallets)
    && SubmittedOf(w'.mining) == SubmittedOf(w.mining) + ReceiptOf(change)
    && match change
       case Nothing => w'.wallet.requests == w.wallet.requests && w'.audit == w.audit
       case Opened(r) =>
         && r.id !in w.wallet.requests && r.status == Pending
         && w'.wallet.requests == w.wallet.requests[r.id := r]
         && exists actor ::
              || w'.audit == Logged(w.audit, r, Requested, actor)
              || w'.audit == Logged(Logged(w.audit, r, Requested, actor), r, Flagged, RISK_SYSTEM)
       case OpenedAndBlocked(r, done) =>
         && r.id !in w.wallet.requests && r.status == Pending
         && done.id == r.id && done.status == Cancelled && done.metadata == r.metadata
         && w'.wallet.requests == w.wallet.requests[r.id := done]
         && exists actor :: w'.audit == Logged(Logged(w.audit, r, Requested, actor), done, CancelledBy, RISK_SYSTEM)
       case Moved(r, action, actor, receipt) =>
         && r.id in w.wallet.requests && Lawful(c, w.wallet.requests[r.id], r, action, actor, receipt)
         && (receipt.Some? ==> r.walletId in w.wallet.wallets && w.wallet.wallets[r.walletId].userId == receipt.value.userId)
         && w'.wallet.requests == w.wallet.requests[r.id := r]
         && w'.audit == Logged(w.audit, r, action, actor)
  }

  /** The submitted records of the mining log. */
  function SubmittedOf(log: seq<MiningRecord>): seq<MiningRecord> {
    if log == [] then []
    else SubmittedOf(log[..|log| - 1]) + if log[|log| - 1].submitted then [log[|log| - 1]] else []
  }

  lemma SubmittedAppended(log: seq<MiningRecord>, m: MiningRecord)
    ensures SubmittedOf(log + [m]) == SubmittedOf(log) + if m.submitted then [m] else []
  {
    assert (log + [m])[..|log + [m]| - 1] == log;
  }

  /** The final approval, where the rules let the call reach it. */
  predicate ReachesCompletion(c: Config, w: Flow, op: FlowOp)
    requires op.FlowApprove?
  {
    && op.requestId in w.wallet.requests
    && var pending := w.wallet.requests[op.requestId];
    && (c.twoStep ==>
          && pending.status != Pending
          && (pending.status == ApprovedStage1 ==>
                !(c.distinct && STAGE1_APPROVER in pending.metadata && pending.metadata[STAGE1_APPROVER] == Text(op.actor)))
          && (pending.status != ApprovedStage1 ==> op.finalize))
  }

  predicate FirstApproval(c: Config, w: Flow, op: FlowOp)
    requires op.FlowApprove?
  {
    c.twoStep && !op.finalize && op.requestId in w.wallet.requests && w.wallet.requests[op.requestId].status == Pending
  }

  function EndingOfOp(c: Config, w: Flow, op: FlowOp): Ending
    requires op.FlowApprove?
  {
    EndingOf(c, w, op.requestId, op.actor, op.notes, op.coin, op.reply)
  }

  /** An approval call completes, marks the first approval, or changes nothing. */
  lemma ApproveCases(c: Config, w: Flow, op: FlowOp)
    requires op.FlowApprove?
    ensures FlowStep(c, w, op) ==
      if ReachesCompletion(c, w, op) then CompleteFlow(c, w, op.requestId, op.actor, op.notes, op.coin, op.reply).0
      else if FirstApproval(c, w, op) then MarkedFlow(w, op)
      else w
  {
  }

  function MarkedFlow(w: Flow, op: FlowOp): Flow
    requires op.FlowApprove? && op.requestId in w.wallet.requests && w.wallet.requests[op.requestId].status == Pending
  {
    MarkFlow(w, op.requestId, op.actor, op.notes).0
  }

  /** The requests whose submission the call got accepted by the miner: at most one. */
  ghost function Accepted(c: Config, w: Flow, op: FlowOp): seq<Id> {
    if op.FlowApprove? && ReachesCompletion(c, w, op) && EndingOfOp(c, w, op).Submitted? then [op.requestId] else []
  }

  ghost predicate Tallies(change: Change, accepted: seq<Id>) {
    accepted == if change.Moved? && change.receipt.Some? then [change.r.id] else []
  }

  lemma MarkedMirrors(c: Config, w: Flow, op: FlowOp)
    requires Structure(w.wallet) && op.FlowApprove? && FirstApproval(c, w, op)
    ensures exists change :: Mirrors(c, w, MarkedFlow(w, op), change) && (change.Nothing? || change.Moved?) && Tallies(change, [])
  {
    var r := Stage1Spec(w.wallet, op.requestId, op.actor, op.notes, STAGE).1.value;
    assert Lawful(c, w.wallet.requests[op.requestId], r, ApprovedFirst, op.actor, None);
    var change := Moved(r, ApprovedFirst, op.actor, None);
    assert Mirrors(c, w, MarkedFlow(w, op), change);
    assert Tallies(change, []);
  }

  lemma EndsLawful(c: Config, w: Flow, w': Flow, op: FlowOp, ending: Ending, receipt: Option<MiningRecord>)
    requires op.FlowApprove? && ReachesCompletion(c, w, op) && !ending.Refused?
    requires EndsAs(w, w', op.requestId, ending, op.actor, op.notes, op.coin)
    requires if ending.Submitted? then |w'.mining| > |w.mining| && receipt == Some(w'.mining[|w.mining|]) else receipt == None
    ensures Lawful(c, w.wallet.requests[op.requestId], Settled(w.wallet, op.requestId, ending, op.actor, op.notes),
                   if ending.NoCoin? || ending.Compensated? then ExecutionFailure else ApprovedFinal, op.actor, receipt)
  {
  }

  lemma EndsMirrors(c: Config, w: Flow, w': Flow, op: FlowOp, ending: Ending)
    requires op.FlowApprove? && ReachesCompletion(c, w, op) && !ending.Refused?
    requires EndsAs(w, w', op.requestId, ending, op.actor, op.notes, op.coin)
    ensures exists change :: Mirrors(c, w, w', change) && (change.Nothing? || change.Moved?)
                          && Tallies(change, if ending.Submitted? then [op.requestId] else [])
  {
    var r := Settled(w.wallet, op.requestId, ending, op.actor, op.notes);
    var action := if ending.NoCoin? || ending.Compensated? then ExecutionFailure else ApprovedFinal;
    if w'.mining != w.mining {
      assert w'.mining == w.mining + [w'.mining[|w.mining|]];
      SubmittedAppended(w.mining, w'.mining[|w.mining|]);
    }
    var receipt := if ending.Submitted? then Some(w'.mining[|w.mining|]) else None;
    EndsLawful(c, w, w', op, ending, receipt);
    var change := Moved(r, action, op.actor, receipt);
    assert Mirrors(c, w, w', change);
    assert Tallies(change, if ending.Submitted? then [op.requestId] else []);
  }

  lemma ApproveMirrors(c: Config, w: Flow, op: FlowOp)
    requires Structure(w.wallet) && op.FlowApprove?
    ensures exists change :: Mirrors(c, w, FlowStep(c, w, op), change) && (change.Nothing? || change.Moved?)
                          && Tallies(change, Accepted(c, w, op))
  {
    ApproveCases(c, w, op);
    var w' := FlowStep(c, w, op);
    if ReachesCompletion(c, w, op) {
      CompleteEnds(c, w, op.requestId, op.actor, op.notes, op.coin, op.reply);
      if EndingOfOp(c, w, op).Refused? {
        assert Mirrors(c, w, w', Nothing) && Tallies(Nothing, []);
      } else {
        EndsMirrors(c, w, w', op, EndingOfOp(c, w, op));
      }
    } else if FirstApproval(c, w, op) {
      MarkedMirrors(c, w, op);
    } else {
      assert Mirrors(c, w, w', Nothing) && Tallies(Nothing, []);
    }
  }

  /** A request call opens a request with the caller's metadata, or changes nothing. */
  lemma RequestMirrors(c: Config, w: Flow, op: FlowOp)
    requires Structure(w.wallet) && op.FlowRequest?
    ensures exists change :: Mirrors(c, w, FlowStep(c, w, op), change) && !change.Moved?
                          && (change.Nothing? || change.r.metadata == op.metadata)
  {
    var w' := FlowStep(c, w, op);
    var (s1, requested) := RequestSpec(w.wallet, op.walletId, op.amount, op.actor, op.reference, op.metadata);
    if requested.Failure? {
      assert Mirrors(c, w, w', Nothing);
    } else {
      var r := requested.value;
      assert r.id == w.wallet.nextId && r.id !in w.wallet.requests;
      var w1 := w.(wallet := s1, audit := Logged(w.audit, r, Requested, op.actor));
      ScreenMirrors(c, w, w1, r, op.actor, Risk.Context(r.id, op.actor, op.amount, op.ip, op.device), op.now);
    }
  }

  lemma ScreenMirrors(c: Config, w: Flow, w1: Flow, r: Request, actor: string, context: Risk.Context, now: int)
    requires r.id !in w.wallet.requests && r.status == Pending
    requires SameOwners(w.wallet.wallets, w1.wallet.wallets) && w1.mining == w.mining
    requires w1.wallet.requests == w.wallet.requests[r.id := r] && w1.audit == Logged(w.audit, r, Requested, actor)
    requires r.walletId in w1.wallet.wallets ==> w1.wallet.wallets[r.walletId].id == r.walletId
    ensures exists change :: Mirrors(c, w, ScreenFlow(c, w1, r, context, now).0, change) && !change.Moved?
                          && (change.Nothing? || change.r.metadata == r.metadata)
  {
    var w' := ScreenFlow(c, w1, r, context, now).0;
    var (s2, cancelled) := CancelSpec(w1.wallet, r.id, RISK_SYSTEM);
    if w'.wallet == w1.wallet {
      assert Mirrors(c, w, w', Opened(r));
    } else {
      assert w'.wallet == s2 && cancelled.Success?;
      assert Mirrors(c, w, w', OpenedAndBlocked(r, cancelled.value));
    }
  }

  /** Reject and cancel move a pending request. */
  lemma ReleaseMirrors(c: Config, w: Flow, w': Flow, r: Id, status: RequestStatus, actor: string, notes: Option<string>, action: Action)
    requires Structure(w.wallet) && status in {Rejected, Cancelled} && action in {RejectedBy, CancelledBy}
    requires var (s1, done) := ReleaseSpec(w.wallet, r, status, actor, notes);
      w' == if done.Success? then w.(wallet := s1, audit := Logged(w.audit, done.value, action, actor)) else w
    ensures exists change :: Mirrors(c, w, w', change) && (change.Nothing? || change.Moved?) && Tallies(change, [])
  {
    var (s1, done) := ReleaseSpec(w.wallet, r, status, actor, notes);
    if done.Success? {
      assert Lawful(c, w.wallet.requests[r], done.value, action, actor, None);
      assert Mirrors(c, w, w', Moved(done.value, action, actor, None)) && Tallies(Moved(done.value, action, actor, None), []);
    } else {
      assert Mirrors(c, w, w', Nothing) && Tallies(Nothing, []);
    }
  }

  lemma FundsChangeNoRequest(s: State, op: Op)
    requires op.EnsureWallet? || op.Credit? || op.Debit? || op.SetStatus?
    ensures Step(s, op).requests == s.requests
  {
  }

  lemma FundsKeepOwners(s: State, op: Op)
    requires WalletsOk(s.wallets, s.byUser, s.nextId)
    requires op.EnsureWallet? || op.Credit? || op.Debit? || op.SetStatus?
    ensures SameOwners(s.wallets, Step(s, op).wallets)
  {
  }

  lemma FundsMirrors(c: Config, w: Flow, op: FlowOp)
    requires Structure(w.wallet) && op.Funds?
    ensures Mirrors(c, w, FlowStep(c, w, op), Nothing) && Tallies(Nothing, [])
  {
    if op.op.EnsureWallet? || op.op.Credit? || op.op.Debit? || op.op.SetStatus? {
      FundsChangeNoRequest(w.wallet, op.op);
      FundsKeepOwners(w.wallet, op.op);
    }
  }

  lemma OtherMirrors(c: Config, w: Flow, op: FlowOp)
    requires Structure(w.wallet) && !op.FlowApprove? && !op.FlowRequest?
    ensures exists change :: Mirrors(c, w, FlowStep(c, w, op), change) && (change.Nothing? || change.Moved?) && Tallies(change, [])
  {
    match op
    case FlowReject(r, actor, notes) =>
      ReleaseMirrors(c, w, FlowStep(c, w, op), r, Rejected, actor, notes, RejectedBy);
    case FlowCancel(r, actor) =>
      ReleaseMirrors(c, w, FlowStep(c, w, op), r, Cancelled, actor,
                     if r in w.wallet.requests then w.wallet.requests[r].notes else None, CancelledBy);
    case Funds(_) => FundsMirrors(c, w, op);
  }

  /** Every call changes at most one request, lawfully, and writes exactly its audit records. */
  lemma StepMirrors(c: Config, w: Flow, op: FlowOp) returns (change: Change)
    requires Structure(w.wallet)
    ensures Mirrors(c, w, FlowStep(c, w, op), change) && Tallies(change, Accepted(c, w, op))
    ensures change.Opened? || change.OpenedAndBlocked? ==> op.FlowRequest? && change.r.metadata == op.metadata
  {
    var w' := FlowStep(c, w, op);
    if op.FlowRequest? {
      RequestMirrors(c, w, op);
      change :| Mirrors(c, w, w', change) && !change.Moved? && (change.Nothing? || change.r.metadata == op.metadata);
    } else {
      if op.FlowApprove? {
        ApproveMirrors(c, w, op);
      } else {
        OtherMirrors(c, w, op);
      }
      change :| Mirrors(c, w, w', change) && (change.Nothing? || change.Moved?) && Tallies(change, Accepted(c, w, op));
    }
  }

  // ------------------------------------------------------------ audit agreement

  /** The status in the last audit record of request r. */
  function LastStatus(audit: seq<AuditRecord>, r: Id): Option<RequestStatus> {
    if audit == [] then None
    else
      var last := audit[|audit| - 1];
      if last.requestId == r then Some(last.status) else LastStatus(audit[..|audit| - 1], r)
  }

  ghost predicate AgreesAt(w: Flow, r: Id) {
    r in w.wallet.requests ==> LastStatus(w.audit, r) == Some(w.wallet.requests[r].status)
  }

  ghost predicate AuditAgrees(w: Flow) {
    forall r {:trigger AgreesAt(w, r)} :: AgreesAt(w, r)
  }

  lemma LoggedStatus(audit: seq<AuditRecord>, q: Request, action: Action, actor: string, r: Id)
    ensures LastStatus(Logged(audit, q, action, actor), r) == if q.id == r then Some(q.status) else LastStatus(audit, r)
  {
    var audit' := Logged(audit, q, action, actor);
    assert audit'[..|audit'| - 1] == audit;
  }

  lemma MirrorAgrees(c: Config, w: Flow, w': Flow, change: Change)
    requires AuditAgrees(w) && Mirrors(c, w, w', change)
    ensures AuditAgrees(w')
  {
    forall r ensures AgreesAt(w', r) {
      assert AgreesAt(w, r);
      match change
      case Nothing =>
      case Opened(q) =>
        var actor :| || w'.audit == Logged(w.audit, q, Requested, actor)
                     || w'.audit == Logged(Logged(w.audit, q, Requested, actor), q, Flagged, RISK_SYSTEM);
        LoggedStatus(w.audit, q, Requested, actor, r);
        LoggedStatus(Logged(w.audit, q, Requested, actor), q, Flagged, RISK_SYSTEM, r);
      case OpenedAndBlocked(q, done) =>
        var actor :| w'.audit == Logged(Logged(w.audit, q, Requested, actor), done, CancelledBy, RISK_SYSTEM);
        LoggedStatus(w.audit, q, Requested, actor, r);
        LoggedStatus(Logged(w.audit, q, Requested, actor), done, CancelledBy, RISK_SYSTEM, r);
      case Moved(q, action, actor, _) =>
        LoggedStatus(w.audit, q, action, actor, r);
    }
  }

  /** After every call of every workflow run, returning or raising, the last audit record
      of each request carries the request's current status. */
  lemma {:induction false} AuditAlwaysAgrees(c: Config, ops: seq<FlowOp>)
    ensures AuditAgrees(FlowRun(c, ops))
  {
    if |ops| > 0 {
      var before := ops[..|ops| - 1];
      AuditAlwaysAgrees(c, before);
      FlowRunKeeps(c, before);
      var change := StepMirrors(c, FlowRun(c, before), ops[|ops| - 1]);
      MirrorAgrees(c, FlowRun(c, before), FlowRun(c, ops), change);
    }
  }

  /** A request that a risk rule blocks ends cancelled, with every wallet as it was, if and
      only if its wallet's pending amount was not already negative; otherwise the automatic
      cancellation is itself refused and the request stays pending. */
  lemma BlockedRequestCancelledIff(c: Config, w: Flow, walletId: Id, amount: int, actor: string, reference: Option<Id>,
                                   metadata: Metadata, ip: Option<string>, device: Option<string>, now: int)
    requires Structure(w.wallet) && c.rules.Some?
    requires RequestSpec(w.wallet, walletId, amount, actor, reference, metadata).1.Success?
    requires exists i :: 0 <= i < |c.rules.value|
               && Risk.Blocks(c.rules.value[i], Risk.Context(w.wallet.nextId, actor, amount, ip, device))
    ensures walletId in w.wallet.wallets
    ensures var (w', result) := RequestFlow(c, w, walletId, amount, actor, reference, metadata, ip, device, now);
      var id := w.wallet.nextId;
      && id in w'.wallet.requests
      && (if w.wallet.wallets[walletId].pending >= 0
          then result == Failure(RiskBlocked) && w'.wallet.requests[id].status == Cancelled
               && w'.wallet.wallets == w.wallet.wallets
          else result == Failure(WalletRefused(PendingInsufficient)) && w'.wallet.requests[id].status == Pending)
  {
    var context := Risk.Context(w.wallet.nextId, actor, amount, ip, device);
    Risk.BlockedIff(c.rules.value, context, w.risk.devices, now, |c.rules.value|);
    var (s1, requested) := RequestSpec(w.wallet, walletId, amount, actor, reference, metadata);
    assert s1.requests[w.wallet.nextId] == requested.value;
    var (s2, cancelled) := CancelSpec(s1, requested.value.id, RISK_SYSTEM);
    if cancelled.Success? {
      assert s2.wallets[walletId] == w.wallet.wallets[walletId];
    }
  }

  // -------------------------------------------------------- what callers bring

  /** The requests that calls of the run opened with a metadata key of their own. */
  ghost function Brought(c: Config, ops: seq<FlowOp>, key: string): set<Id> {
    if |ops| == 0 then {}
    else
      var w, op := FlowRun(c, ops[..|ops| - 1]), ops[|ops| - 1];
      Brought(c, ops[..|ops| - 1], key) + if BringsKey(op, key) then OpenedBy(w, FlowStep(c, w, op)) else {}
  }

  predicate BringsKey(op: FlowOp, key: string) { op.FlowRequest? && key in op.metadata }

  function OpenedBy(w: Flow, w': Flow): set<Id> {
    set r | r in w'.wallet.requests && r !in w.wallet.requests
  }

  /** The requests a call adds to those whose caller brought the key. */
  lemma BroughtNow(c: Config, w: Flow, op: FlowOp, w': Flow, change: Change, key: string, r: Id)
    requires w' == FlowStep(c, w, op) && Mirrors(c, w, w', change)
    requires change.Opened? || change.OpenedAndBlocked? ==> op.FlowRequest? && change.r.metadata == op.metadata
    ensures BringsKey(op, key) && r in OpenedBy(w, w') <==>
      (change.Opened? || change.OpenedAndBlocked?) && r == change.r.id && key in change.r.metadata
  {
  }

  /** The first approver ends up in the metadata, unless the caller had put a name there. */
  lemma Stage1Names(base: Metadata, actor: string, notes: Option<string>)
    ensures var m := Stage1Metadata(base, STAGE, actor, notes);
      && STAGE1_APPROVER in m
      && m[STAGE1_APPROVER] == (if STAGE1_APPROVER in base then base[STAGE1_APPROVER] else Text(actor))
      && (WITHDRAW_ID in m <==> WITHDRAW_ID in base)
  {
    assert |WITHDRAW_ID| == 19 && |STAGE1_APPROVER| == 15 && |STAGE1_NOTES| == 12 && |"stage"| == 5;
  }

  // ------------------------------------------------------------- concrete runs

  /** A miner that refuses everything. */
  function Refusing(): Reply { (coin: string, amount: int) => (k: nat) => Failure("down") }

  /** A plain approval in figures. */
  lemma PlainFigures(c: Config, w: Flow, op: FlowOp)
    requires Structure(w.wallet) && op.FlowApprove? && ReachesCompletion(c, w, op) && EndingOfOp(c, w, op) == Plain
    ensures var w', q := FlowStep(c, w, op), w.wallet.requests[op.requestId];
      && q.walletId in w.wallet.wallets
      && var x := w.wallet.wallets[q.walletId];
      && w'.wallet.wallets == w.wallet.wallets[q.walletId := x.(balance := x.balance - q.amount, pending := x.pending - q.amount)]
      && w'.wallet.requests == w.wallet.requests[op.requestId := q.(status := Approved, approvedBy := Some(op.actor), notes := op.notes)]
      && w'.wallet.nextId == w.wallet.nextId && w'.mining == w.mining
  {
    ApproveCases(c, w, op);
    CompleteEnds(c, w, op.requestId, op.actor, op.notes, op.coin, op.reply);
  }

  /** An approval the miner refused, in figures: the hold is taken off twice. */
  lemma CompensatedFigures(c: Config, w: Flow, op: FlowOp)
    requires Structure(w.wallet) && op.FlowApprove? && ReachesCompletion(c, w, op) && EndingOfOp(c, w, op).Compensated?
    ensures var w', q := FlowStep(c, w, op), w.wallet.requests[op.requestId];
      && q.walletId in w.wallet.wallets && op.requestId in w'.wallet.requests
      && var x := w.wallet.wallets[q.walletId];
      && w'.wallet.wallets == w.wallet.wallets[q.walletId := x.(pending := Max(0, x.pending - q.amount - q.amount))]
      && w'.wallet.requests == w.wallet.requests[op.requestId := w'.wallet.requests[op.requestId]]
      && w'.wallet.nextId == w.wallet.nextId
  {
    ApproveCases(c, w, op);
    CompleteEnds(c, w, op.requestId, op.actor, op.notes, op.coin, op.reply);
    SettledFigures(w.wallet, op.requestId, op.actor, op.notes, EndingOfOp(c, w, op).reason);
  }

  lemma SettledFigures(s: State, requestId: Id, actor: string, notes: Option<string>, reason: string)
    requires Structure(s) && ApproveSpec(s, requestId, actor, notes).1.Success?
    ensures requestId in s.requests && s.requests[requestId].walletId in s.wallets
    ensures var s', q := SettledWallet(s, requestId, Compensated(reason), actor, notes), s.requests[requestId];
      var x := s.wallets[q.walletId];
      && requestId in s'.requests && s'.requests == s.requests[requestId := s'.requests[requestId]]
      && s'.wallets == s.wallets[q.walletId := x.(pending := Max(0, x.pending - q.amount - q.amount))]
      && s'.nextId == s.nextId
  {
    ApprovedRequest(s, requestId, actor, notes);
  }

  lemma FlowRunAppend(c: Config, ops: seq<FlowOp>, op: FlowOp)
    ensures FlowRun(c, ops + [op]) == FlowStep(c, FlowRun(c, ops), op)
  {
    assert (ops + [op])[..|ops + [op]| - 1] == ops;
  }

  lemma ThreeSteps(c: Config, op0: FlowOp, op1: FlowOp, op2: FlowOp)
    ensures FlowRun(c, [op0, op1, op2]) == FlowStep(c, FlowStep(c, FlowStep(c, START, op0), op1), op2)
  {
    var none: seq<FlowOp> := [];
    FlowRunAppend(c, none, op0);
    FlowRunAppend(c, none + [op0], op1);
    FlowRunAppend(c, none + [op0] + [op1], op2);
    assert none + [op0] + [op1] + [op2] == [op0, op1, op2];
  }

  lemma FourSteps(c: Config, op0: FlowOp, op1: FlowOp, op2: FlowOp, op3: FlowOp)
    ensures FlowRun(c, [op0, op1, op2, op3]) == FlowStep(c, FlowStep(c, FlowStep(c, FlowStep(c, START, op0), op1), op2), op3)
  {
    ThreeSteps(c, op0, op1, op2);
    FlowRunAppend(c, [op0, op1, op2], op3);
    assert [op0, op1, op2] + [op3] == [op0, op1, op2, op3];
  }

  /** A credit into the empty state. */
  lemma FirstCredit(c: Config, amount: int) returns (w: Flow)
    requires amount > 0
    ensures w == FlowStep(c, START, Funds(Credit("u", amount, None)))
    ensures Inv(w.wallet) && w.mining == [] && w.wallet.nextId == 1
    ensures w.wallet.wallets == map[0 := Wallet(0, "u", amount, 0, Active)] && w.wallet.requests == map[]
  {
    RunKeeps([]);
    w := FlowStep(c, START, Funds(Credit("u", amount, None)));
    FlowStepKeeps(c, START, Funds(Credit("u", amount, None)));
  }

  /** A credit of 10 and a request for it. */
  lemma OneRequest(c: Config, meta: Metadata) returns (w: Flow)
    requires c.rules == None
    ensures w == FlowStep(c, FlowStep(c, START, Funds(Credit("u", 10, None))), FlowRequest(0, 10, "u", None, meta, None, None, 0))
    ensures Structure(w.wallet) && w.mining == []
    ensures w.wallet.wallets == map[0 := Wallet(0, "u", 10, 10, Active)]
    ensures w.wallet.requests == map[1 := Request(1, 0, 10, Pending, "u", None, meta, None, None, None)]
  {
    var op := FlowRequest(0, 10, "u", None, meta, None, None, 0);
    var w1 := FirstCredit(c, 10);
    FlowStepKeeps(c, w1, op);
    w := FlowStep(c, w1, op);
  }

  /** An approval that raises and leaves the deduction: a request marked for the provider
      without a coin ends approved and deducted, with no mining record. */
  lemma NoCoinExample()
    ensures var c := Config(false, true, None, Some(3));
      var w0 := FlowStep(c, START, Funds(Credit("u", 10, None)));
      var w1 := FlowStep(c, w0, FlowRequest(0, 10, "u", None, map[PROVIDER := Text(HASHDAM)], None, None, 0));
      var (w2, result) := ApproveFlow(c, w1, 1, "a", None, None, true, Refusing());
      && result == Failure(ExecutionFailed(CoinMissing))
      && 0 in w2.wallet.wallets && w2.wallet.wallets[0].balance == 0
      && 1 in w2.wallet.requests && w2.wallet.requests[1].status == Approved
      && w2.mining == []
  {
    var c := Config(false, true, None, Some(3));
    var w1 := OneRequest(c, map[PROVIDER := Text(HASHDAM)]);
    NoCoinApproval(c, w1, Refusing());
  }

  lemma NoCoinApproval(c: Config, w: Flow, reply: Reply)
    requires !c.twoStep && c.attempts.Some? && Structure(w.wallet)
    requires w.wallet.wallets == map[0 := Wallet(0, "u", 10, 10, Active)]
    requires w.wallet.requests == map[1 := Request(1, 0, 10, Pending, "u", None, map[PROVIDER := Text(HASHDAM)], None, None, None)]
    ensures var (w', result) := ApproveFlow(c, w, 1, "a", None, None, true, reply);
      && result == Failure(ExecutionFailed(CoinMissing))
      && 0 in w'.wallet.wallets && w'.wallet.wallets[0].balance == 0
      && 1 in w'.wallet.requests && w'.wallet.requests[1].status == Approved
      && w'.mining == w.mining
  {
    assert COIN != PROVIDER by { assert COIN[0] != PROVIDER[0]; }
    assert ApproveSpec(w.wallet, 1, "a", None).1.Success?;
    assert EndingOf(c, w, 1, "a", None, None, reply) == NoCoin;
    PlainResult(c, w, 1, "a", None, None, reply);
  }
}
