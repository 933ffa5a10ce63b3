/** Opening, rejecting and cancelling a withdrawal through the workflow, in full. */
module WorkflowRequests {
  import opened Wrappers
  import opened PointWallet
  import opened PointWalletLaws
  import opened PointWalletEffects
  import opened Mining
  import opened Workflow
  import opened WorkflowLaws
  import opened WorkflowCalls
  import Risk

  /** The wallet after placing the hold of q. */
  function HeldState(s: State, q: Request): State
    requires q.walletId in s.wallets
  {
    var x := s.wallets[q.walletId];
    State(s.wallets[q.walletId := Wallet(q.walletId, x.userId, x.balance, x.pending + q.amount, x.status)], s.byUser,
          s.ledger + [LedgerEntry(q.walletId, HoldEntry, q.amount, x.balance, x.pending + q.amount, Some(q.id))],
          s.requests[q.id := q], q.id + 1)
  }

  /** The wallet after placing the hold of q and cancelling it at once. */
  function CancelledState(s: State, q: Request, done: Request): State
    requires q.walletId in s.wallets
  {
    var x := s.wallets[q.walletId];
    State(s.wallets, s.byUser,
          s.ledger + [LedgerEntry(q.walletId, HoldEntry, q.amount, x.balance, x.pending + q.amount, Some(q.id)),
                      LedgerEntry(q.walletId, ReleaseEntry, q.amount, x.balance, x.pending, Some(q.id))],
          s.requests[q.id := done], q.id + 1)
  }

  ghost predicate BlockedBy(c: Config, context: Risk.Context) {
    c.rules.Some? && exists i :: 0 <= i < |c.rules.value| && Risk.Blocks(c.rules.value[i], context)
  }

  ghost predicate FlaggedBy(c: Config, w: Flow, context: Risk.Context) {
    c.rules.Some? && exists i :: 0 <= i < |c.rules.value| && Risk.Reviews(c.rules.value, i, context, w.risk.devices)
  }

  /** What an accepted request leaves: pending, and flagged when a rule asks for a review; or
      cancelled by the risk system, with the wallets as before, when a rule blocks it and
      pending was not negative; or, when it was, still pending although blocked. */
  ghost predicate Screened(c: Config, w: Flow, w': Flow, r: Result<Request, FlowError>, q: Request, context: Risk.Context)
    requires q.walletId in w.wallet.wallets
  {
    var requested := AuditOf(q, Requested, q.requestedBy, Pending);
    && w'.mining == w.mining
    && if BlockedBy(c, context) then
         if w.wallet.wallets[q.walletId].pending >= 0 then
           && w'.wallet == CancelledState(w.wallet, q, q.(status := Cancelled, rejectedBy := Some("risk-system")))
           && w'.audit == w.audit + [requested, AuditOf(q, CancelledBy, "risk-system", Cancelled)]
           && r == Failure(RiskBlocked)
         else
           w'.wallet == HeldState(w.wallet, q) && w'.audit == w.audit + [requested] && r == Failure(WalletRefused(PendingInsufficient))
       else
         && w'.wallet == HeldState(w.wallet, q)
         && w'.audit == w.audit + [requested] + (if FlaggedBy(c, w, context) then [AuditOf(q, Flagged, "risk-system", Pending)] else [])
         && r == Success(q)
  }

  /** What a request call does. */
  ghost predicate RequestDone(c: Config, w: Flow, w': Flow, r: Result<Request, FlowError>, op: FlowOp)
    requires op.FlowRequest?
  {
    var s := w.wallet;
    if op.walletId !in s.wallets || (op.actor != "" && s.wallets[op.walletId].userId != op.actor) then
      w' == w && r == Failure(WalletRefused(WalletNotFound))
    else
      var x := s.wallets[op.walletId];
      if x.status != Active then w' == w && r == Failure(WalletRefused(WalletSuspended))
      else if op.amount <= 0 then w' == w && r == Failure(WalletRefused(AmountNotPositive))
      else if op.amount > Available(x) then w' == w && r == Failure(WalletRefused(InsufficientBalance))
      else
        var q := Request(s.nextId, op.walletId, op.amount, Pending, op.actor, op.reference, op.metadata, None, None, None);
        var context := Risk.Context(q.id, op.actor, op.amount, op.ip, op.device);
        && Screened(c, w, w', r, q, context)
        && w'.risk == if c.rules.Some? then Risk.EvaluateSpec(c.rules.value, w.risk, context, op.now).0 else w.risk
  }

  function Asked(c: Config, w: Flow, op: FlowOp): (Flow, Result<Request, FlowError>)
    requires op.FlowRequest?
  {
    RequestFlow(c, w, op.walletId, op.amount, op.actor, op.reference, op.metadata, op.ip, op.device, op.now)
  }

  /** The cancellation of the request just held. */
  lemma CancelledAtOnce(s: State, q: Request)
    requires Structure(s) && q.walletId in s.wallets && q.id == s.nextId && q.status == Pending && q.amount > 0
    ensures var (s', r) := CancelSpec(HeldState(s, q), q.id, "risk-system");
      if s.wallets[q.walletId].pending >= 0 then
        var done := q.(status := Cancelled, rejectedBy := Some("risk-system"));
        s' == CancelledState(s, q, done) && r == Success(done)
      else s' == HeldState(s, q) && r == Failure(PendingInsufficient)
  {
  }

  lemma ScreenExact(c: Config, w: Flow, q: Request, context: Risk.Context, now: int)
    requires Structure(w.wallet) && q.walletId in w.wallet.wallets && q.id == w.wallet.nextId && q.status == Pending && q.amount > 0
    requires q.notes == None
    ensures var held := w.(wallet := HeldState(w.wallet, q), audit := w.audit + [AuditOf(q, Requested, q.requestedBy, Pending)]);
      var (w', r) := ScreenFlow(c, held, q, context, now);
      && Screened(c, w, w', r, q, context)
      && w'.risk == if c.rules.Some? then Risk.EvaluateSpec(c.rules.value, w.risk, context, now).0 else w.risk
  {
    CancelledAtOnce(w.wallet, q);
    if c.rules.Some? {
      Risk.BlockedIff(c.rules.value, context, w.risk.devices, now, |c.rules.value|);
      Risk.ReviewedIff(c.rules.value, context, w.risk.devices, now, |c.rules.value|);
    }
  }

  /** A request call in full. */
  lemma RequestExact(c: Config, w: Flow, op: FlowOp)
    requires Structure(w.wallet) && op.FlowRequest?
    ensures RequestDone(c, w, Asked(c, w, op).0, Asked(c, w, op).1, op)
  {
    RequestEffect(w.wallet, op.walletId, op.amount, op.actor, op.reference, op.metadata);
    var (s1, requested) := RequestSpec(w.wallet, op.walletId, op.amount, op.actor, op.reference, op.metadata);
    if requested.Success? {
      var q := requested.value;
      ScreenExact(c, w, q, Risk.Context(q.id, op.actor, op.amount, op.ip, op.device), op.now);
    }
  }

  /** What a rejection or a cancellation does. */
  ghost predicate Ended(w: Flow, w': Flow, r: Result<Request, FlowError>, id: Id, status: RequestStatus, action: Action, actor: string, notes: Option<string>)
    requires Structure(w.wallet)
  {
    && w'.mining == w.mining && w'.risk == w.risk
    && (r.Failure? ==> r.error.WalletRefused?)
    && Released(w.wallet, w'.wallet, if r.Success? then Success(r.value) else Failure(r.error.wallet), id, status, actor, notes)
    && w'.audit == w.audit + if r.Success? then [AuditOf(r.value, action, actor, status)] else []
  }

  lemma RejectExact(w: Flow, id: Id, actor: string, notes: Option<string>)
    requires Structure(w.wallet)
    ensures Ended(w, RejectFlow(w, id, actor, notes).0, RejectFlow(w, id, actor, notes).1, id, Rejected, RejectedBy, actor, notes)
  {
    RejectEffect(w.wallet, id, actor, notes);
  }

  lemma CancelExact(w: Flow, id: Id, actor: string)
    requires Structure(w.wallet)
    ensures Ended(w, CancelFlow(w, id, actor).0, CancelFlow(w, id, actor).1, id, Cancelled, CancelledBy, actor,
                      if id in w.wallet.requests then w.wallet.requests[id].notes else None)
  {
    CancelEffect(w.wallet, id, actor);
  }
}
