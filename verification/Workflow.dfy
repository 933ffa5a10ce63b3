/** The withdrawal workflow: requests screened by risk rules, one- or two-step
    approval, mining execution, and an audit record for every change. */
module Workflow {
  import opened Wrappers
  import opened PointWallet
  import opened Mining
  import Risk

  datatype Action = Requested | ApprovedFirst | ApprovedFinal | RejectedBy | CancelledBy | Flagged | ExecutionFailure

  datatype AuditRecord = AuditRecord(requestId: Id, walletId: Id, action: Action, actor: string, amount: int, status: RequestStatus)

  datatype FlowError =
    | WalletRefused(wallet: WalletError)
    | RiskBlocked
    | SecondApprovalRequired
    | SameApprover
    | FinalizeRequired
    | ExecutionFailed(execution: ExecutionError)

  /** rules is None without a risk service, attempts is None without a mining orchestrator. */
  datatype Config = Config(twoStep: bool, distinct: bool, rules: Option<seq<Risk.Rule>>, attempts: Option<int>)

  datatype Flow = Flow(wallet: State, mining: seq<MiningRecord>, risk: Risk.State, audit: seq<AuditRecord>)

  const START := Flow(PointWallet.EMPTY, [], Risk.EMPTY, [])

  const RISK_SYSTEM := "risk-system"
  const PROVIDER := "provider"
  const HASHDAM := "hashdam"
  const WITHDRAW_ID := "hashdam_withdraw_id"
  const STAGE := map["stage" := Text("stage1")]

  function Logged(audit: seq<AuditRecord>, r: Request, action: Action, actor: string): seq<AuditRecord> {
    audit + [AuditRecord(r.id, r.walletId, action, actor, r.amount, r.status)]
  }

  /** Risk screening of the request r just logged: a blocked request is cancelled at once. */
  function ScreenFlow(c: Config, w: Flow, r: Request, context: Risk.Context, now: int): (Flow, Result<Request, FlowError>) {
    if c.rules.None? then (w, Success(r))
    else
      var (risk', findings) := Risk.EvaluateSpec(c.rules.value, w.risk, context, now);
      var w1 := w.(risk := risk');
      if Risk.Blocked(findings) then
        var (s1, cancelled) := CancelSpec(w.wallet, r.id, RISK_SYSTEM);
        match cancelled
        case Failure(error) => (w1, Failure(WalletRefused(error)))
        case Success(r1) => (w1.(wallet := s1, audit := Logged(w.audit, r1, CancelledBy, RISK_SYSTEM)), Failure(RiskBlocked))
      else if Risk.NeedsReview(findings) then (w1.(audit := Logged(w.audit, r, Flagged, RISK_SYSTEM)), Success(r))
      else (w1, Success(r))
  }

  function RequestFlow(c: Config, w: Flow, walletId: Id, amount: int, actor: string, reference: Option<Id>,
                       metadata: Metadata, ip: Option<string>, device: Option<string>, now: int): (Flow, Result<Request, FlowError>)
  {
    var (s1, requested) := RequestSpec(w.wallet, walletId, amount, actor, reference, metadata);
    match requested
    case Failure(error) => (w, Failure(WalletRefused(error)))
    case Success(r) =>
      ScreenFlow(c, w.(wallet := s1, audit := Logged(w.audit, r, Requested, actor)), r,
                 Risk.Context(r.id, actor, amount, ip, device), now)
  }

  lemma RequestScreened(c: Config, w: Flow, w1: Flow, r: Request, walletId: Id, amount: int, actor: string, reference: Option<Id>,
                        metadata: Metadata, ip: Option<string>, device: Option<string>, now: int)
    requires RequestSpec(w.wallet, walletId, amount, actor, reference, metadata) == (w1.wallet, Success(r))
    requires w1 == w.(wallet := w1.wallet, audit := Logged(w.audit, r, Requested, actor))
    ensures RequestFlow(c, w, walletId, amount, actor, reference, metadata, ip, device, now)
         == ScreenFlow(c, w1, r, Risk.Context(r.id, actor, amount, ip, device), now)
  {
  }

  function ShouldExecute(c: Config, r: Request, coin: Option<string>): bool {
    && c.attempts.Some?
    && (|| (coin.Some? && coin.value != "")
        || (COIN in r.metadata && r.metadata[COIN] != Null)
        || (PROVIDER in r.metadata && r.metadata[PROVIDER] == Text(HASHDAM)))
  }

  /** Mining execution of the request just approved in w. */
  function ExecuteFlow(attempts: int, w: Flow, requestId: Id, actor: string, notes: Option<string>, coin: Option<string>, reply: Reply)
    : (Flow, Result<Request, FlowError>)
  {
    var (s1, log, outcome) := ExecuteSpec(w.wallet, w.mining, attempts, requestId, actor, notes, coin, reply);
    var w1 := w.(wallet := s1, mining := log);
    match outcome
    case Success(submission) =>
      var (s2, annotated) := AnnotateSpec(s1, requestId, Receipt(submission));
      (match annotated
       case Failure(error) => (w1, Failure(WalletRefused(error)))
       case Success(r) => (w1.(wallet := s2, audit := Logged(w.audit, r, ApprovedFinal, actor)), Success(r)))
    case Failure(WalletFailed(error)) => (w1, Failure(WalletRefused(error)))
    case Failure(error) =>
      if requestId !in s1.requests then (w1, Failure(WalletRefused(WithdrawalNotFound)))
      else (w1.(audit := Logged(w.audit, s1.requests[requestId], ExecutionFailure, actor)), Failure(ExecutionFailed(error)))
  }

  function Receipt(submission: Submission): Metadata {
    map[WITHDRAW_ID := Text(submission.withdrawId), COIN := Text(submission.coin)]
  }

  /** The final approval, reached when the step rules allow it. */
  function CompleteFlow(c: Config, w: Flow, requestId: Id, actor: string, notes: Option<string>, coin: Option<string>, reply: Reply)
    : (Flow, Result<Request, FlowError>)
  {
    var (s1, approved) := ApproveSpec(w.wallet, requestId, actor, notes);
    match approved
    case Failure(error) => (w, Failure(WalletRefused(error)))
    case Success(r) =>
      if !ShouldExecute(c, r, coin) then
        (w.(wallet := s1, audit := Logged(w.audit, r, ApprovedFinal, actor)), Success(r))
      else ExecuteFlow(c.attempts.value, w.(wallet := s1), requestId, actor, notes, coin, reply)
  }

  /** The first approval. */
  function MarkFlow(w: Flow, requestId: Id, actor: string, notes: Option<string>): (Flow, Result<Request, FlowError>)
    requires requestId in w.wallet.requests && w.wallet.requests[requestId].status == Pending
  {
    var (s1, marked) := Stage1Spec(w.wallet, requestId, actor, notes, STAGE);
    (w.(wallet := s1, audit := Logged(w.audit, marked.value, ApprovedFirst, actor)), Success(marked.value))
  }

  function ApproveFlow(c: Config, w: Flow, requestId: Id, actor: string, notes: Option<string>, coin: Option<string>,
                       finalize: bool, reply: Reply): (Flow, Result<Request, FlowError>)
  {
    if requestId !in w.wallet.requests then (w, Failure(WalletRefused(WithdrawalNotFound)))
    else
      var pending := w.wallet.requests[requestId];
      if c.twoStep && pending.status == Pending then
        if finalize then (w, Failure(SecondApprovalRequired))
        else MarkFlow(w, requestId, actor, notes)
      else if c.twoStep && pending.status == ApprovedStage1 then
        if c.distinct && STAGE1_APPROVER in pending.metadata && pending.metadata[STAGE1_APPROVER] == Text(actor)
        then (w, Failure(SameApprover))
        else CompleteFlow(c, w, requestId, actor, notes, coin, reply)
      else if c.twoStep && !finalize then (w, Failure(FinalizeRequired))
      else CompleteFlow(c, w, requestId, actor, notes, coin, reply)
  }

  function RejectFlow(w: Flow, requestId: Id, actor: string, notes: Option<string>): (Flow, Result<Request, FlowError>) {
    var (s1, rejected) := RejectSpec(w.wallet, requestId, actor, notes);
    match rejected
    case Failure(error) => (w, Failure(WalletRefused(error)))
    case Success(r) => (w.(wallet := s1, audit := Logged(w.audit, r, RejectedBy, actor)), Success(r))
  }

  function CancelFlow(w: Flow, requestId: Id, actor: string): (Flow, Result<Request, FlowError>) {
    var (s1, cancelled) := CancelSpec(w.wallet, requestId, actor);
    match cancelled
    case Failure(error) => (w, Failure(WalletRefused(error)))
    case Success(r) => (w.(wallet := s1, audit := Logged(w.audit, r, CancelledBy, actor)), Success(r))
  }

  // ------------------------------------------------------------------ runs

  /** A workflow call, or a wallet call that concerns no request. */
  datatype FlowOp =
    | FlowRequest(walletId: Id, amount: int, actor: string, reference: Option<Id>, metadata: Metadata,
                  ip: Option<string>, device: Option<string>, now: int)
    | FlowApprove(requestId: Id, actor: string, notes: Option<string>, coin: Option<string>, finalize: bool, reply: Reply)
    | FlowReject(requestId: Id, actor: string, notes: Option<string>)
    | FlowCancel(requestId: Id, actor: string)
    | Funds(op: Op)

  function FlowStep(c: Config, w: Flow, op: FlowOp): Flow {
    match op
    case FlowRequest(wallet, amount, actor, ref, meta, ip, device, now) =>
      RequestFlow(c, w, wallet, amount, actor, ref, meta, ip, device, now).0
    case FlowApprove(r, actor, notes, coin, finalize, reply) => ApproveFlow(c, w, r, actor, notes, coin, finalize, reply).0
    case FlowReject(r, actor, notes) => RejectFlow(w, r, actor, notes).0
    case FlowCancel(r, actor) => CancelFlow(w, r, actor).0
    case Funds(inner) =>
      if inner.EnsureWallet? || inner.Credit? || inner.Debit? || inner.SetStatus?
      then w.(wallet := Step(w.wallet, inner)) else w
  }

  ghost function FlowRun(c: Config, ops: seq<FlowOp>): Flow {
    if |ops| == 0 then START else FlowStep(c, FlowRun(c, ops[..|ops| - 1]), ops[|ops| - 1])
  }

  // --------------------------------------------------------------- service

  class WithdrawalWorkflowService {
    const wallets: PointWalletService
    const risk: Risk.RiskService?
    const orchestrator: MiningOrchestrator?
    const twoStepRequired: bool
    const distinctApprovers: bool
    var audit: seq<AuditRecord>

    constructor (wallets: PointWalletService, risk: Risk.RiskService?, orchestrator: MiningOrchestrator?,
                 twoStepRequired: bool, distinctApprovers: bool)
      requires wallets.Valid()
      requires orchestrator != null ==> orchestrator.wallets == wallets
      ensures this.wallets == wallets && this.risk == risk && this.orchestrator == orchestrator
      ensures this.twoStepRequired == twoStepRequired && this.distinctApprovers == distinctApprovers
      ensures Valid() && audit == []
    {
      this.wallets, this.risk, this.orchestrator := wallets, risk, orchestrator;
      this.twoStepRequired, this.distinctApprovers := twoStepRequired, distinctApprovers;
      audit := [];
    }

    ghost predicate Valid()
      reads this, wallets
    {
      wallets.Valid() && (orchestrator != null ==> orchestrator.wallets == wallets)
    }

    ghost function Settings(): Config {
      Config(twoStepRequired, distinctApprovers,
             if risk == null then None else Some(risk.rules),
             if orchestrator == null then None else Some(orchestrator.mining.attempts))
    }

    /** The parts the service can change. */
    ghost function Parts(): set<object> {
      {this, wallets} + (if risk == null then {} else {risk}) + (if orchestrator == null then {} else {orchestrator.mining})
    }

    ghost function View(): Flow
      reads Parts()
    {
      Flow(wallets.View(), if orchestrator == null then [] else orchestrator.mining.log,
           if risk == null then Risk.EMPTY else risk.View(), audit)
    }

    method Log(r: Request, action: Action, actor: string)
      modifies this`audit
      ensures audit == Logged(old(audit), r, action, actor)
    {
      audit := audit + [AuditRecord(r.id, r.walletId, action, actor, r.amount, r.status)];
    }

    method RequestWithdrawal(walletId: Id, amount: int, actor: string, reference: Option<Id>, metadata: Metadata,
                             ip: Option<string>, device: Option<string>, now: int) returns (r: Result<Request, FlowError>)
      requires Valid()
      modifies Parts()
      ensures Valid()
      ensures (View(), r) == RequestFlow(Settings(), old(View()), walletId, amount, actor, reference, metadata, ip, device, now)
    {
      var requested := wallets.RequestWithdrawal(walletId, amount, actor, reference, metadata);
      if requested.Failure? {
        return Failure(WalletRefused(requested.error));
      }
      var request := requested.value;
      Log(request, Requested, actor);
      RequestScreened(Settings(), old(View()), View(), request, walletId, amount, actor, reference, metadata, ip, device, now);
      r := Screen(request, Risk.Context(request.id, actor, amount, ip, device), now);
    }

    method Screen(request: Request, context: Risk.Context, now: int) returns (r: Result<Request, FlowError>)
      requires Valid()
      modifies Parts()
      ensures Valid()
      ensures (View(), r) == ScreenFlow(Settings(), old(View()), request, context, now)
    {
      if risk == null {
        return Success(request);
      }
      var verdict := risk.EvaluateWithdrawal(context, now);
      if verdict.Failure? {
        var cancelled := wallets.CancelWithdrawal(request.id, RISK_SYSTEM);
        if cancelled.Failure? {
          return Failure(WalletRefused(cancelled.error));
        }
        Log(cancelled.value, CancelledBy, RISK_SYSTEM);
        return Failure(RiskBlocked);
      }
      if verdict.value {
        Log(request, Flagged, RISK_SYSTEM);
      }
      r := Success(request);
    }

    method Approve(requestId: Id, actor: string, notes: Option<string>, coin: Option<string>, finalize: bool, reply: Reply)
      returns (r: Result<Request, FlowError>)
      requires Valid()
      modifies Parts()
      ensures Valid()
      ensures (View(), r) == ApproveFlow(Settings(), old(View()), requestId, actor, notes, coin, finalize, reply)
    {
      if requestId !in wallets.requests {
        return Failure(WalletRefused(WithdrawalNotFound));
      }
      var pending := wallets.requests[requestId];
      var final := finalize || !twoStepRequired;
      if twoStepRequired && pending.status == Pending {
        if final {
          return Failure(SecondApprovalRequired);
        }
        r := Mark(requestId, actor, notes);
        return;
      }
      if twoStepRequired && pending.status == ApprovedStage1 {
        if distinctApprovers && STAGE1_APPROVER in pending.metadata && pending.metadata[STAGE1_APPROVER] == Text(actor) {
          return Failure(SameApprover);
        }
        final := true;
      }
      if !final {
        return Failure(FinalizeRequired);
      }
      r := Complete(requestId, actor, notes, coin, reply);
    }

    method Mark(requestId: Id, actor: string, notes: Option<string>) returns (r: Result<Request, FlowError>)
      requires Valid() && requestId in wallets.requests && wallets.requests[requestId].status == Pending
      modifies Parts()
      ensures Valid()
      ensures (View(), r) == MarkFlow(old(View()), requestId, actor, notes)
    {
      var marked := wallets.MarkStage1Approval(requestId, actor, notes, STAGE);
      Log(marked.value, ApprovedFirst, actor);
      r := Success(marked.value);
    }

    method Complete(requestId: Id, actor: string, notes: Option<string>, coin: Option<string>, reply: Reply)
      returns (r: Result<Request, FlowError>)
      requires Valid()
      modifies Parts()
      ensures Valid()
      ensures (View(), r) == CompleteFlow(Settings(), old(View()), requestId, actor, notes, coin, reply)
    {
      var approved := wallets.ApproveWithdrawal(requestId, actor, notes);
      if approved.Failure? {
        return Failure(WalletRefused(approved.error));
      }
      if orchestrator == null || !ShouldExecute(Config(twoStepRequired, distinctApprovers, None, Some(0)), approved.value, coin) {
        Log(approved.value, ApprovedFinal, actor);
        return Success(approved.value);
      }
      r := Execute(requestId, actor, notes, coin, reply);
    }

    method Execute(requestId: Id, actor: string, notes: Option<string>, coin: Option<string>, reply: Reply)
      returns (r: Result<Request, FlowError>)
      requires Valid() && orchestrator != null
      modifies Parts()
      ensures Valid()
      ensures (View(), r) == ExecuteFlow(orchestrator.mining.attempts, old(View()), requestId, actor, notes, coin, reply)
    {
      var outcome := orchestrator.ApproveAndExecute(requestId, actor, notes, coin, reply);
      match outcome
      case Success(submission) =>
        var annotated := wallets.AnnotateWithdrawal(requestId, Receipt(submission));
        if annotated.Failure? {
          return Failure(WalletRefused(annotated.error));
        }
        Log(annotated.value, ApprovedFinal, actor);
        r := Success(annotated.value);
      case Failure(error) =>
        if error.WalletFailed? {
          return Failure(WalletRefused(error.error));
        }
        if requestId !in wallets.requests {
          return Failure(WalletRefused(WithdrawalNotFound));
        }
        Log(wallets.requests[requestId], ExecutionFailure, actor);
        r := Failure(ExecutionFailed(error));
    }

    method Reject(requestId: Id, actor: string, notes: Option<string>) returns (r: Result<Request, FlowError>)
      requires Valid()
      modifies Parts()
      ensures Valid()
      ensures (View(), r) == RejectFlow(old(View()), requestId, actor, notes)
    {
      var rejected := wallets.RejectWithdrawal(requestId, actor, notes);
      if rejected.Failure? {
        return Failure(WalletRefused(rejected.error));
      }
      Log(rejected.value, RejectedBy, actor);
      r := Success(rejected.value);
    }

    method Cancel(requestId: Id, actor: string) returns (r: Result<Request, FlowError>)
      requires Valid()
      modifies Parts()
      ensures Valid()
      ensures (View(), r) == CancelFlow(old(View()), requestId, actor)
    {
      var cancelled := wallets.CancelWithdrawal(requestId, actor);
      if cancelled.Failure? {
        return Failure(WalletRefused(cancelled.error));
      }
      Log(cancelled.value, CancelledBy, actor);
      r := Success(cancelled.value);
    }
  }
}
