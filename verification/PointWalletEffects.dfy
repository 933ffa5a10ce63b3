/** Every call of the point wallet in full: when it is accepted, which error it raises
    otherwise, and every field it then changes.  The balance of a wallet is tied to the
    calls made, whatever the ledger says. */
module PointWalletEffects {
  import opened Wrappers
  import opened PointWallet
  import opened PointWalletLaws

  /** What wallet x can spend. */
  function Available(x: Wallet): int { x.balance - x.pending }

  // ---------------------------------------------------------- credit and debit

  /** A credit goes to the user's wallet, opened if there is none.  A refused one leaves a
      new wallet behind, with nothing in it. */
  lemma CreditEffect(s: State, u: string, a: int, ref: Option<Id>)
    requires Structure(s)
    ensures var (s', r) := CreditSpec(s, u, a, ref);
      var w := if u in s.byUser then s.byUser[u] else s.nextId;
      var nextId := if u in s.byUser then s.nextId else s.nextId + 1;
      var x := if u in s.byUser then s.wallets[w] else Wallet(s.nextId, u, 0, 0, Active);
      if x.status == Active && a > 0 then
        var now := Wallet(w, u, x.balance + a, x.pending, Active);
        && r == Success(now)
        && s' == State(s.wallets[w := now], s.byUser[u := w],
                       s.ledger + [LedgerEntry(w, CreditEntry, a, x.balance + a, x.pending, ref)], s.requests, nextId)
      else
        && r == Failure(if x.status != Active then WalletSuspended else AmountNotPositive)
        && s' == State(s.wallets[w := x], s.byUser[u := w], s.ledger, s.requests, nextId)
  {
  }

  /** Ensuring a wallet opens an empty active one for a user without any. */
  lemma EnsureEffect(s: State, u: string)
    requires Structure(s)
    ensures Step(s, EnsureWallet(u)) ==
      if u in s.byUser then s
      else State(s.wallets[s.nextId := Wallet(s.nextId, u, 0, 0, Active)], s.byUser[u := s.nextId], s.ledger, s.requests, s.nextId + 1)
  {
  }

  /** A debit takes from the available amount of an active wallet. */
  lemma DebitEffect(s: State, w: Id, a: int, ref: Option<Id>)
    requires Structure(s)
    ensures var (s', r) := DebitSpec(s, w, a, ref);
      if w in s.wallets && s.wallets[w].status == Active && 0 < a <= Available(s.wallets[w]) then
        var x := s.wallets[w];
        var now := Wallet(w, x.userId, x.balance - a, x.pending, Active);
        && r == Success(now)
        && s' == State(s.wallets[w := now], s.byUser,
                       s.ledger + [LedgerEntry(w, DebitEntry, a, x.balance - a, x.pending, ref)], s.requests, s.nextId)
      else
        && s' == s
        && r == Failure(if w !in s.wallets then WalletNotFound
                        else if s.wallets[w].status != Active then WalletSuspended
                        else if a <= 0 then AmountNotPositive
                        else InsufficientBalance)
  {
  }

  // --------------------------------------------------------------- withdrawals

  /** A request holds its amount; only the wallet's owner, or nobody by name, may make it. */
  lemma RequestEffect(s: State, w: Id, a: int, actor: string, ref: Option<Id>, meta: Metadata)
    requires Structure(s)
    ensures var (s', r) := RequestSpec(s, w, a, actor, ref, meta);
      var owned := w in s.wallets && (actor == "" || s.wallets[w].userId == actor);
      if owned && s.wallets[w].status == Active && 0 < a <= Available(s.wallets[w]) then
        var x := s.wallets[w];
        var request := Request(s.nextId, w, a, Pending, actor, ref, meta, None, None, None);
        && r == Success(request)
        && s' == State(s.wallets[w := Wallet(w, x.userId, x.balance, x.pending + a, Active)], s.byUser,
                       s.ledger + [LedgerEntry(w, HoldEntry, a, x.balance, x.pending + a, Some(s.nextId))],
                       s.requests[s.nextId := request], s.nextId + 1)
      else
        && s' == s
        && r == Failure(if !owned then WalletNotFound
                        else if s.wallets[w].status != Active then WalletSuspended
                        else if a <= 0 then AmountNotPositive
                        else InsufficientBalance)
  {
  }

  /** An approval pays a held request out of its hold. */
  lemma ApproveEffect(s: State, id: Id, actor: string, notes: Option<string>)
    requires Structure(s)
    ensures var (s', r) := ApproveSpec(s, id, actor, notes);
      if id !in s.requests then s' == s && r == Failure(WithdrawalNotFound)
      else
        var q := s.requests[id];
        && q.walletId in s.wallets
        && var x := s.wallets[q.walletId];
        if q.status in {Pending, ApprovedStage1} && x.status == Active && q.amount <= x.balance then
          var done := Request(id, q.walletId, q.amount, Approved, q.requestedBy, q.reference, q.metadata, Some(actor), q.rejectedBy, notes);
          var now := Wallet(q.walletId, x.userId, x.balance - q.amount, x.pending - q.amount, Active);
          && r == Success(done)
          && s' == State(s.wallets[q.walletId := now], s.byUser,
                         s.ledger + [LedgerEntry(q.walletId, WithdrawalEntry, q.amount, now.balance, now.pending, Some(id))],
                         s.requests[id := done], s.nextId)
        else
          && s' == s
          && r == Failure(if q.status !in {Pending, ApprovedStage1} then InvalidWithdrawalState
                          else if x.status != Active then WalletSuspended
                          else InsufficientBalance)
  {
  }

  /** A failure gives an approved amount back and takes the hold off, for an approved request
      a second time, never below zero. */
  lemma FailEffect(s: State, id: Id, actor: string, reason: Option<string>)
    requires Structure(s)
    ensures var (s', r) := FailSpec(s, id, actor, reason);
      if id !in s.requests then s' == s && r == Failure(WithdrawalNotFound)
      else
        var q := s.requests[id];
        && q.walletId in s.wallets
        && var x := s.wallets[q.walletId];
        if q.status in {ApprovedStage1, Approved} then
          var done := Request(id, q.walletId, q.amount, Failed, q.requestedBy, q.reference, q.metadata, q.approvedBy, Some(actor), reason);
          var now := Wallet(q.walletId, x.userId, if q.status == Approved then x.balance + q.amount else x.balance,
                            if x.pending >= q.amount then x.pending - q.amount else 0, x.status);
          && r == Success(done)
          && s' == State(s.wallets[q.walletId := now], s.byUser,
                         s.ledger + [LedgerEntry(q.walletId, ReleaseEntry, q.amount, now.balance, now.pending, Some(id))],
                         s.requests[id := done], s.nextId)
        else s' == s && r == Failure(InvalidWithdrawalState)
  {
  }

  /** What ending a pending request without paying it leaves: its hold is taken off. */
  ghost predicate Released(s: State, s': State, r: Result<Request, WalletError>, id: Id, status: RequestStatus, actor: string, notes: Option<string>)
    requires Structure(s)
  {
    if id !in s.requests then s' == s && r == Failure(WithdrawalNotFound)
    else
      var q := s.requests[id];
      && q.walletId in s.wallets
      && var x := s.wallets[q.walletId];
      if q.status == Pending && q.amount <= x.pending then
        var done := Request(id, q.walletId, q.amount, status, q.requestedBy, q.reference, q.metadata, q.approvedBy, Some(actor), notes);
        var now := Wallet(q.walletId, x.userId, x.balance, x.pending - q.amount, x.status);
        && r == Success(done)
        && s' == State(s.wallets[q.walletId := now], s.byUser,
                       s.ledger + [LedgerEntry(q.walletId, ReleaseEntry, q.amount, now.balance, now.pending, Some(id))],
                       s.requests[id := done], s.nextId)
      else s' == s && r == Failure(if q.status != Pending then InvalidWithdrawalState else PendingInsufficient)
  }

  lemma RejectEffect(s: State, id: Id, actor: string, notes: Option<string>)
    requires Structure(s)
    ensures var (s', r) := RejectSpec(s, id, actor, notes); Released(s, s', r, id, Rejected, actor, notes)
  {
  }

  /** A cancelled request keeps its notes. */
  lemma CancelEffect(s: State, id: Id, actor: string)
    requires Structure(s)
    ensures var (s', r) := CancelSpec(s, id, actor);
      Released(s, s', r, id, Cancelled, actor, if id in s.requests then s.requests[id].notes else None)
  {
  }

  /** A first approval moves no money.  The metadata takes the update's values, then the
      approver and the notes where nothing is there yet. */
  lemma Stage1Effect(s: State, id: Id, actor: string, notes: Option<string>, update: Metadata)
    requires Structure(s)
    ensures var (s', r) := Stage1Spec(s, id, actor, notes, update);
      if id !in s.requests then s' == s && r == Failure(WithdrawalNotFound)
      else if s.requests[id].status != Pending then s' == s && r == Failure(InvalidWithdrawalState)
      else
        && r.Success?
        && r.value == s.requests[id].(status := ApprovedStage1, metadata := r.value.metadata)
        && s' == State(s.wallets, s.byUser, s.ledger, s.requests[id := r.value], s.nextId)
        && Stage1Marked(s.requests[id].metadata, update, actor, notes, r.value.metadata)
  {
    var m := if id in s.requests then s.requests[id].metadata else map[];
    assert "stage1_approver" != "stage1_notes" by { assert |"stage1_approver"| != |"stage1_notes"|; }
    assert Stage1Marked(m, update, actor, notes, Stage1Metadata(m, update, actor, notes));
  }

  ghost predicate Stage1Marked(base: Metadata, update: Metadata, actor: string, notes: Option<string>, m: Metadata) {
    forall k {:trigger k in m} ::
      if k in update then k in m && m[k] == update[k]
      else if k in base then k in m && m[k] == base[k]
      else if k == "stage1_approver" then k in m && m[k] == Text(actor)
      else if k == "stage1_notes" && notes.Some? && notes.value != "" then k in m && m[k] == Text(notes.value)
      else k !in m
  }

  lemma AnnotateEffect(s: State, id: Id, update: Metadata)
    requires Structure(s)
    ensures var (s', r) := AnnotateSpec(s, id, update);
      if id !in s.requests then s' == s && r == Failure(WithdrawalNotFound)
      else
        && r.Success?
        && r.value == s.requests[id].(metadata := r.value.metadata)
        && s' == State(s.wallets, s.byUser, s.ledger, s.requests[id := r.value], s.nextId)
        && (forall k :: k in r.value.metadata <==> k in update || k in s.requests[id].metadata)
        && (forall k :: k in r.value.metadata ==> r.value.metadata[k] == if k in update then update[k] else s.requests[id].metadata[k])
  {
  }

  // ------------------------------------------------- the balance from the calls

  /** What the call, if it is an accepted credit, adds to wallet w. */
  function CreditedBy(s: State, op: Op, w: Id): int {
    if !op.Credit? || op.amount <= 0 then 0
    else if op.userId in s.byUser then
      if s.byUser[op.userId] == w && w in s.wallets && s.wallets[w].status == Active then op.amount else 0
    else if s.nextId == w then op.amount else 0
  }

  /** What the call, if it is an accepted debit, takes from wallet w. */
  function DebitedBy(s: State, op: Op, w: Id): int {
    if op.Debit? && op.walletId == w && w in s.wallets && s.wallets[w].status == Active
       && 0 < op.amount <= Available(s.wallets[w]) then op.amount else 0
  }

  /** Everything the calls of the run credited to wallet w, and everything they debited. */
  function CreditCalls(ops: seq<Op>, w: Id): int {
    if ops == [] then 0
    else CreditCalls(ops[..|ops| - 1], w) + CreditedBy(Run(ops[..|ops| - 1]), ops[|ops| - 1], w)
  }

  function DebitCalls(ops: seq<Op>, w: Id): int {
    if ops == [] then 0
    else DebitCalls(ops[..|ops| - 1], w) + DebitedBy(Run(ops[..|ops| - 1]), ops[|ops| - 1], w)
  }

  lemma TotalsAppended(ledger: seq<LedgerEntry>, e: LedgerEntry, w: Id)
    ensures Total(ledger + [e], w, CreditEntry) == Total(ledger, w, CreditEntry) + if e.walletId == w && e.kind == CreditEntry then e.amount else 0
    ensures Total(ledger + [e], w, DebitEntry) == Total(ledger, w, DebitEntry) + if e.walletId == w && e.kind == DebitEntry then e.amount else 0
  {
    assert (ledger + [e])[..|ledger + [e]| - 1] == ledger;
  }

  /** The credit and debit entries of a wallet are worth what the calls moved. */
  ghost predicate Moved(s: State, s': State, w: Id, credited: int, debited: int) {
    && Total(s'.ledger, w, CreditEntry) == Total(s.ledger, w, CreditEntry) + credited
    && Total(s'.ledger, w, DebitEntry) == Total(s.ledger, w, DebitEntry) + debited
  }

  lemma CreditMoves(s: State, u: string, a: int, ref: Option<Id>, w: Id)
    requires Structure(s)
    ensures Moved(s, CreditSpec(s, u, a, ref).0, w, CreditedBy(s, Credit(u, a, ref), w), 0)
  {
    CreditEffect(s, u, a, ref);
    var to := if u in s.byUser then s.byUser[u] else s.nextId;
    var x := if u in s.byUser then s.wallets[to] else Wallet(s.nextId, u, 0, 0, Active);
    TotalsAppended(s.ledger, LedgerEntry(to, CreditEntry, a, x.balance + a, x.pending, ref), w);
  }

  lemma DebitMoves(s: State, x: Id, a: int, ref: Option<Id>, w: Id)
    requires Structure(s)
    ensures Moved(s, DebitSpec(s, x, a, ref).0, w, 0, DebitedBy(s, Debit(x, a, ref), w))
  {
    DebitEffect(s, x, a, ref);
    if x in s.wallets {
      TotalsAppended(s.ledger, LedgerEntry(x, DebitEntry, a, s.wallets[x].balance - a, s.wallets[x].pending, ref), w);
    }
  }

  lemma OthersMoveNothing(s: State, op: Op, w: Id)
    requires Structure(s) && !op.Credit? && !op.Debit?
    ensures Moved(s, Step(s, op), w, 0, 0)
  {
    var ledger := Step(s, op).ledger;
    LastEntry(s, op);
    if ledger != s.ledger {
      TotalsAppended(s.ledger, ledger[|s.ledger|], w);
    }
  }

  lemma LastEntry(s: State, op: Op)
    requires !op.Credit? && !op.Debit?
    ensures var ledger := Step(s, op).ledger;
      ledger == s.ledger
      || (|ledger| == |s.ledger| + 1 && ledger == s.ledger + [ledger[|s.ledger|]] && ledger[|s.ledger|].kind in {HoldEntry, ReleaseEntry, WithdrawalEntry})
  {
  }

  lemma {:induction false} LedgerFromCalls(ops: seq<Op>, w: Id)
    ensures Total(Run(ops).ledger, w, CreditEntry) == CreditCalls(ops, w)
    ensures Total(Run(ops).ledger, w, DebitEntry) == DebitCalls(ops, w)
  {
    if ops != [] {
      var before, op := ops[..|ops| - 1], ops[|ops| - 1];
      LedgerFromCalls(before, w);
      RunKeeps(before);
      match op
      case Credit(u, a, ref) => CreditMoves(Run(before), u, a, ref, w);
      case Debit(x, a, ref) => DebitMoves(Run(before), x, a, ref, w);
      case _ => OthersMoveNothing(Run(before), op, w);
    }
  }

  /** On every run a wallet's balance is what the accepted credit calls brought, less what the
      accepted debit calls took, less the amounts of its requests now approved. */
  lemma BalanceFromCalls(ops: seq<Op>, w: Id)
    requires w in Run(ops).wallets
    ensures Run(ops).wallets[w].balance == CreditCalls(ops, w) - DebitCalls(ops, w) - PaidOut(Run(ops), w)
  {
    RunKeeps(ops);
    LedgerFromCalls(ops, w);
    assert Books(Run(ops), w);
  }
}
