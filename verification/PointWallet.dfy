/** Internal point wallets and their withdrawal requests.

    State is the pure view of the repository, the *Spec functions say what one
    service call does to it (the guards in the source's order), and the class
    PointWalletService performs the calls in place on its own fields.  Amounts
    are integers in the smallest unit; ids come from a counter, so the id
    factory never repeats itself.  What the calls keep true is in
    PointWalletLaws. */
module PointWallet {
  import opened Wrappers

  type Id = nat

  datatype WalletStatus = Active | Suspended

  datatype Wallet = Wallet(id: Id, userId: string, balance: int, pending: int, status: WalletStatus)

  datatype EntryKind = CreditEntry | DebitEntry | HoldEntry | ReleaseEntry | WithdrawalEntry

  datatype LedgerEntry = LedgerEntry(
    walletId: Id, kind: EntryKind, amount: int,
    balanceAfter: int, pendingAfter: int, reference: Option<Id>)

  datatype RequestStatus = Pending | ApprovedStage1 | Approved | Rejected | Cancelled | Failed

  /** A metadata value: absent and explicit null differ in the source. */
  datatype MetaValue = Null | Text(text: string)
  type Metadata = map<string, MetaValue>

  datatype Request = Request(
    id: Id, walletId: Id, amount: int, status: RequestStatus,
    requestedBy: string, reference: Option<Id>, metadata: Metadata,
    approvedBy: Option<string>, rejectedBy: Option<string>, notes: Option<string>)

  datatype WalletError =
    | WalletNotFound
    | WalletSuspended
    | AmountNotPositive
    | InsufficientBalance
    | WithdrawalNotFound
    | InvalidWithdrawalState
    | PendingInsufficient

  datatype State = State(
    wallets: map<Id, Wallet>,
    byUser: map<string, Id>,
    ledger: seq<LedgerEntry>,
    requests: map<Id, Request>,
    nextId: Id)

  const EMPTY := State(map[], map[], [], map[], 0)

  const STAGE1_APPROVER := "stage1_approver"
  const STAGE1_NOTES := "stage1_notes"

  // ---------------------------------------------------------------- guards

  predicate Holding(status: RequestStatus) {
    status == Pending || status == ApprovedStage1
  }

  /** The failed guard of a caller that needs wallet w, if any. */
  function WalletGuard(s: State, w: Id, expectedUser: string): Option<WalletError> {
    if w !in s.wallets then Some(WalletNotFound)
    else if expectedUser != "" && s.wallets[w].userId != expectedUser then Some(WalletNotFound)
    else None
  }

  /** Guards of an operation spending the available amount: suspended, not positive, insufficient. */
  function SpendGuard(wallet: Wallet, amount: int): Option<WalletError> {
    if wallet.status != Active then Some(WalletSuspended)
    else if amount <= 0 then Some(AmountNotPositive)
    else if amount > wallet.balance - wallet.pending then Some(InsufficientBalance)
    else None
  }

  // ------------------------------------------------------- state transitions

  /** Stores wallet w and appends the ledger entry that records its new figures. */
  function Post(s: State, w: Wallet, kind: EntryKind, amount: int, reference: Option<Id>): State {
    s.(wallets := s.wallets[w.id := w],
       ledger := s.ledger + [LedgerEntry(w.id, kind, amount, w.balance, w.pending, reference)])
  }

  /** Post together with the replacement of request r, which the entry refers to. */
  function Settle(s: State, w: Wallet, r: Request, kind: EntryKind): State {
    Post(s.(requests := s.requests[r.id := r]), w, kind, r.amount, Some(r.id))
  }

  predicate HasWallet(s: State, userId: string) {
    userId in s.byUser && s.byUser[userId] in s.wallets
  }

  function EnsureWalletSpec(s: State, userId: string): State {
    if HasWallet(s, userId) then s
    else
      s.(wallets := s.wallets[s.nextId := Wallet(s.nextId, userId, 0, 0, Active)],
         byUser := s.byUser[userId := s.nextId],
         nextId := s.nextId + 1)
  }

  /** A rejected credit still leaves behind the wallet it created. */
  function CreditSpec(s: State, userId: string, amount: int, reference: Option<Id>): (State, Result<Wallet, WalletError>) {
    var s1 := EnsureWalletSpec(s, userId);
    var wallet := s1.wallets[s1.byUser[userId]];
    if wallet.status != Active then (s1, Failure(WalletSuspended))
    else if amount <= 0 then (s1, Failure(AmountNotPositive))
    else
      var w := wallet.(balance := wallet.balance + amount);
      (Post(s1, w, CreditEntry, amount, reference), Success(w))
  }

  function DebitSpec(s: State, walletId: Id, amount: int, reference: Option<Id>): (State, Result<Wallet, WalletError>) {
    if walletId !in s.wallets then (s, Failure(WalletNotFound))
    else
      var wallet := s.wallets[walletId];
      match SpendGuard(wallet, amount)
      case Some(error) => (s, Failure(error))
      case None =>
        var w := wallet.(balance := wallet.balance - amount);
        (Post(s, w, DebitEntry, amount, reference), Success(w))
  }

  function RequestSpec(s: State, walletId: Id, amount: int, requestedBy: string,
                       reference: Option<Id>, metadata: Metadata): (State, Result<Request, WalletError>) {
    match WalletGuard(s, walletId, requestedBy)
    case Some(error) => (s, Failure(error))
    case None =>
      var wallet := s.wallets[walletId];
      match SpendGuard(wallet, amount)
      case Some(error) => (s, Failure(error))
      case None =>
        var w := wallet.(pending := wallet.pending + amount);
        var r := Request(s.nextId, walletId, amount, Pending, requestedBy, reference, metadata, None, None, None);
        (Settle(s.(nextId := s.nextId + 1), w, r, HoldEntry), Success(r))
  }

  function ApproveSpec(s: State, requestId: Id, approvedBy: string, notes: Option<string>): (State, Result<Request, WalletError>) {
    if requestId !in s.requests then (s, Failure(WithdrawalNotFound))
    else if !Holding(s.requests[requestId].status) then (s, Failure(InvalidWithdrawalState))
    else if s.requests[requestId].walletId !in s.wallets then (s, Failure(WalletNotFound))
    else
      var request := s.requests[requestId];
      var wallet := s.wallets[request.walletId];
      if wallet.status != Active then (s, Failure(WalletSuspended))
      else if request.amount > wallet.balance then (s, Failure(InsufficientBalance))
      else
        var w := wallet.(balance := wallet.balance - request.amount, pending := wallet.pending - request.amount);
        var r := request.(status := Approved, approvedBy := Some(approvedBy), notes := notes);
        (Settle(s, w, r, WithdrawalEntry), Success(r))
  }

  /** dict.setdefault: an existing key keeps its value. */
  function SetDefault(m: Metadata, key: string, value: MetaValue): Metadata {
    if key in m then m else m[key := value]
  }

  function Stage1Metadata(base: Metadata, update: Metadata, approver: string, notes: Option<string>): Metadata {
    var merged := SetDefault(base + update, STAGE1_APPROVER, Text(approver));
    if notes.Some? && notes.value != "" then SetDefault(merged, STAGE1_NOTES, Text(notes.value)) else merged
  }

  function Stage1Spec(s: State, requestId: Id, approver: string, notes: Option<string>, update: Metadata): (State, Result<Request, WalletError>) {
    if requestId !in s.requests then (s, Failure(WithdrawalNotFound))
    else if s.requests[requestId].status != Pending then (s, Failure(InvalidWithdrawalState))
    else
      var request := s.requests[requestId];
      var r := request.(status := ApprovedStage1,
                        metadata := Stage1Metadata(request.metadata, update, approver, notes));
      (s.(requests := s.requests[requestId := r]), Success(r))
  }

  /** Gives an approved amount back, and in either case takes the hold off once
      more, clamped at zero: for an approved request the hold is already gone. */
  function FailSpec(s: State, requestId: Id, failedBy: string, reason: Option<string>): (State, Result<Request, WalletError>) {
    if requestId !in s.requests then (s, Failure(WithdrawalNotFound))
    else if s.requests[requestId].status !in {Approved, ApprovedStage1} then (s, Failure(InvalidWithdrawalState))
    else if s.requests[requestId].walletId !in s.wallets then (s, Failure(WalletNotFound))
    else
      var request := s.requests[requestId];
      var wallet := s.wallets[request.walletId];
      var refund := if request.status == Approved then request.amount else 0;
      var w := wallet.(balance := wallet.balance + refund, pending := Max(0, wallet.pending - request.amount));
      var r := request.(status := Failed, rejectedBy := Some(failedBy), notes := reason);
      (Settle(s, w, r, ReleaseEntry), Success(r))
  }

  /** Common part of reject and cancel: only a pending request, only a covered hold. */
  function ReleaseSpec(s: State, requestId: Id, status: RequestStatus, actor: string, notes: Option<string>): (State, Result<Request, WalletError>) {
    if requestId !in s.requests then (s, Failure(WithdrawalNotFound))
    else if s.requests[requestId].status != Pending then (s, Failure(InvalidWithdrawalState))
    else if s.requests[requestId].walletId !in s.wallets then (s, Failure(WalletNotFound))
    else
      var request := s.requests[requestId];
      var wallet := s.wallets[request.walletId];
      if wallet.pending < request.amount then (s, Failure(PendingInsufficient))
      else
        var w := wallet.(pending := wallet.pending - request.amount);
        var r := request.(status := status, rejectedBy := Some(actor), notes := notes);
        (Settle(s, w, r, ReleaseEntry), Success(r))
  }

  function RejectSpec(s: State, requestId: Id, rejectedBy: string, notes: Option<string>): (State, Result<Request, WalletError>) {
    ReleaseSpec(s, requestId, Rejected, rejectedBy, notes)
  }

  /** Cancelling keeps the notes of the request. */
  function CancelSpec(s: State, requestId: Id, cancelledBy: string): (State, Result<Request, WalletError>) {
    ReleaseSpec(s, requestId, Cancelled, cancelledBy,
                if requestId in s.requests then s.requests[requestId].notes else None)
  }

  function AnnotateSpec(s: State, requestId: Id, update: Metadata): (State, Result<Request, WalletError>) {
    if requestId !in s.requests then (s, Failure(WithdrawalNotFound))
    else
      var request := s.requests[requestId];
      var r := request.(metadata := request.metadata + update);
      (s.(requests := s.requests[requestId := r]), Success(r))
  }

  // ------------------------------------------------------------------ runs

  /** One call of the service, or an administrator changing a wallet's status in the store. */
  datatype Op =
    | EnsureWallet(userId: string)
    | Credit(userId: string, amount: int, reference: Option<Id>)
    | Debit(walletId: Id, amount: int, reference: Option<Id>)
    | RequestWithdrawal(walletId: Id, amount: int, actor: string, reference: Option<Id>, metadata: Metadata)
    | Approve(requestId: Id, actor: string, notes: Option<string>)
    | MarkStage1(requestId: Id, actor: string, notes: Option<string>, metadata: Metadata)
    | Fail(requestId: Id, actor: string, notes: Option<string>)
    | Reject(requestId: Id, actor: string, notes: Option<string>)
    | Cancel(requestId: Id, actor: string)
    | Annotate(requestId: Id, metadata: Metadata)
    | SetStatus(walletId: Id, status: WalletStatus)

  function Step(s: State, op: Op): State {
    match op
    case EnsureWallet(u) => EnsureWalletSpec(s, u)
    case Credit(u, a, ref) => CreditSpec(s, u, a, ref).0
    case Debit(w, a, ref) => DebitSpec(s, w, a, ref).0
    case RequestWithdrawal(w, a, actor, ref, meta) => RequestSpec(s, w, a, actor, ref, meta).0
    case Approve(r, actor, notes) => ApproveSpec(s, r, actor, notes).0
    case MarkStage1(r, actor, notes, meta) => Stage1Spec(s, r, actor, notes, meta).0
    case Fail(r, actor, notes) => FailSpec(s, r, actor, notes).0
    case Reject(r, actor, notes) => RejectSpec(s, r, actor, notes).0
    case Cancel(r, actor) => CancelSpec(s, r, actor).0
    case Annotate(r, meta) => AnnotateSpec(s, r, meta).0
    case SetStatus(w, status) =>
      if w in s.wallets then s.(wallets := s.wallets[w := s.wallets[w].(status := status)]) else s
  }

  /** The state after the calls of ops, made one after the other on a new store. */
  function Run(ops: seq<Op>): State {
    if ops == [] then EMPTY else Step(Run(ops[..|ops| - 1]), ops[|ops| - 1])
  }

  // --------------------------------------------------------------- service

  /** The service on its repository's dictionaries and lists, changed in place. */
  class PointWalletService {
    var wallets: map<Id, Wallet>
    var byUser: map<string, Id>
    var ledger: seq<LedgerEntry>
    var requests: map<Id, Request>
    var nextId: Id

    constructor ()
      ensures Valid() && View() == EMPTY
    {
      wallets, byUser, ledger, requests, nextId := map[], map[], [], map[], 0;
    }

    ghost function View(): State
      reads this
    {
      State(wallets, byUser, ledger, requests, nextId)
    }

    /** Records are stored under their own ids. */
    ghost predicate Valid()
      reads this
    {
      && (forall w :: w in wallets ==> wallets[w].id == w)
      && (forall r :: r in requests ==> requests[r].id == r)
    }

    method NewId() returns (id: Id)
      modifies this`nextId
      ensures id == old(nextId) && nextId == id + 1
    {
      id := nextId;
      nextId := nextId + 1;
    }

    method GetOrCreateRecord(userId: string) returns (wallet: Wallet)
      requires Valid()
      modifies this
      ensures Valid()
      ensures View() == EnsureWalletSpec(old(View()), userId)
      ensures HasWallet(View(), userId) && wallet == wallets[byUser[userId]]
    {
      if userId in byUser && byUser[userId] in wallets {
        return wallets[byUser[userId]];
      }
      var id := NewId();
      wallet := Wallet(id, userId, 0, 0, Active);
      wallets := wallets[id := wallet];
      byUser := byUser[userId := id];
    }

    method UpdateWallet(wallet: Wallet)
      modifies this`wallets
      ensures wallets == old(wallets)[wallet.id := wallet]
    {
      wallets := wallets[wallet.id := wallet];
    }

    method UpdateRequest(request: Request)
      modifies this`requests
      ensures requests == old(requests)[request.id := request]
    {
      requests := requests[request.id := request];
    }

    method AppendLedger(wallet: Wallet, kind: EntryKind, amount: int, reference: Option<Id>)
      modifies this`ledger
      ensures ledger == old(ledger) + [LedgerEntry(wallet.id, kind, amount, wallet.balance, wallet.pending, reference)]
    {
      ledger := ledger + [LedgerEntry(wallet.id, kind, amount, wallet.balance, wallet.pending, reference)];
    }

    method Credit(userId: string, amount: int, reference: Option<Id>) returns (r: Result<Wallet, WalletError>)
      requires Valid()
      modifies this
      ensures Valid()
      ensures (View(), r) == CreditSpec(old(View()), userId, amount, reference)
    {
      var wallet := GetOrCreateRecord(userId);
      if wallet.status != Active {
        return Failure(WalletSuspended);
      }
      if amount <= 0 {
        return Failure(AmountNotPositive);
      }
      wallet := wallet.(balance := wallet.balance + amount);
      UpdateWallet(wallet);
      AppendLedger(wallet, CreditEntry, amount, reference);
      r := Success(wallet);
    }

    method Debit(walletId: Id, amount: int, reference: Option<Id>) returns (r: Result<Wallet, WalletError>)
      requires Valid()
      modifies this
      ensures Valid()
      ensures (View(), r) == DebitSpec(old(View()), walletId, amount, reference)
    {
      if walletId !in wallets {
        return Failure(WalletNotFound);
      }
      var wallet := wallets[walletId];
      var guard := SpendGuard(wallet, amount);
      if guard.Some? {
        return Failure(guard.value);
      }
      wallet := wallet.(balance := wallet.balance - amount);
      UpdateWallet(wallet);
      AppendLedger(wallet, DebitEntry, amount, reference);
      r := Success(wallet);
    }

    method RequestWithdrawal(walletId: Id, amount: int, requestedBy: string, reference: Option<Id>, metadata: Metadata)
      returns (r: Result<Request, WalletError>)
      requires Valid()
      modifies this
      ensures Valid()
      ensures (View(), r) == RequestSpec(old(View()), walletId, amount, requestedBy, reference, metadata)
    {
      var missing := if walletId !in wallets then true
                     else requestedBy != "" && wallets[walletId].userId != requestedBy;
      if missing {
        return Failure(WalletNotFound);
      }
      var wallet := wallets[walletId];
      var guard := SpendGuard(wallet, amount);
      if guard.Some? {
        return Failure(guard.value);
      }
      wallet := wallet.(pending := wallet.pending + amount);
      UpdateWallet(wallet);
      var id := NewId();
      var request := Request(id, walletId, amount, Pending, requestedBy, reference, metadata, None, None, None);
      UpdateRequest(request);
      AppendLedger(wallet, HoldEntry, amount, Some(id));
      r := Success(request);
    }

    method ApproveWithdrawal(requestId: Id, approvedBy: string, notes: Option<string>) returns (r: Result<Request, WalletError>)
      requires Valid()
      modifies this
      ensures Valid()
      ensures (View(), r) == ApproveSpec(old(View()), requestId, approvedBy, notes)
    {
      if requestId !in requests {
        return Failure(WithdrawalNotFound);
      }
      var request := requests[requestId];
      if !Holding(request.status) {
        return Failure(InvalidWithdrawalState);
      }
      if request.walletId !in wallets {
        return Failure(WalletNotFound);
      }
      var wallet := wallets[request.walletId];
      if wallet.status != Active {
        return Failure(WalletSuspended);
      }
      if request.amount > wallet.balance {
        return Failure(InsufficientBalance);
      }
      wallet := wallet.(balance := wallet.balance - request.amount);
      wallet := wallet.(pending := wallet.pending - request.amount);
      UpdateWallet(wallet);
      request := request.(status := Approved, approvedBy := Some(approvedBy), notes := notes);
      UpdateRequest(request);
      AppendLedger(wallet, WithdrawalEntry, request.amount, Some(request.id));
      r := Success(request);
    }

    method MarkStage1Approval(requestId: Id, approver: string, notes: Option<string>, metadata: Metadata)
      returns (r: Result<Request, WalletError>)
      requires Valid()
      modifies this
      ensures Valid()
      ensures (View(), r) == Stage1Spec(old(View()), requestId, approver, notes, metadata)
    {
      if requestId !in requests {
        return Failure(WithdrawalNotFound);
      }
      var request := requests[requestId];
      if request.status != Pending {
        return Failure(InvalidWithdrawalState);
      }
      var merged := request.metadata + metadata;
      merged := SetDefault(merged, STAGE1_APPROVER, Text(approver));
      if notes.Some? && notes.value != "" {
        merged := SetDefault(merged, STAGE1_NOTES, Text(notes.value));
      }
      request := request.(status := ApprovedStage1, metadata := merged);
      UpdateRequest(request);
      r := Success(request);
    }

    method FailWithdrawal(requestId: Id, failedBy: string, reason: Option<string>) returns (r: Result<Request, WalletError>)
      requires Valid()
      modifies this
      ensures Valid()
      ensures (View(), r) == FailSpec(old(View()), requestId, failedBy, reason)
    {
      if requestId !in requests {
        return Failure(WithdrawalNotFound);
      }
      var request := requests[requestId];
      if request.status !in {Approved, ApprovedStage1} {
        return Failure(InvalidWithdrawalState);
      }
      if request.walletId !in wallets {
        return Failure(WalletNotFound);
      }
      var wallet := wallets[request.walletId];
      if request.status == Approved {
        wallet := wallet.(balance := wallet.balance + request.amount);
      }
      wallet := wallet.(pending := Max(0, wallet.pending - request.amount));
      UpdateWallet(wallet);
      request := request.(status := Failed, rejectedBy := Some(failedBy), notes := reason);
      UpdateRequest(request);
      AppendLedger(wallet, ReleaseEntry, request.amount, Some(request.id));
      r := Success(request);
    }

    method RejectWithdrawal(requestId: Id, rejectedBy: string, notes: Option<string>) returns (r: Result<Request, WalletError>)
      requires Valid()
      modifies this
      ensures Valid()
      ensures (View(), r) == RejectSpec(old(View()), requestId, rejectedBy, notes)
    {
      r := Release(requestId, Rejected, rejectedBy, notes);
    }

    method CancelWithdrawal(requestId: Id, cancelledBy: string) returns (r: Result<Request, WalletError>)
      requires Valid()
      modifies this
      ensures Valid()
      ensures (View(), r) == CancelSpec(old(View()), requestId, cancelledBy)
    {
      r := Release(requestId, Cancelled, cancelledBy, if requestId in requests then requests[requestId].notes else None);
    }

    method Release(requestId: Id, status: RequestStatus, actor: string, notes: Option<string>) returns (r: Result<Request, WalletError>)
      requires Valid()
      modifies this
      ensures Valid()
      ensures (View(), r) == ReleaseSpec(old(View()), requestId, status, actor, notes)
    {
      if requestId !in requests {
        return Failure(WithdrawalNotFound);
      }
      var request := requests[requestId];
      if request.status != Pending {
        return Failure(InvalidWithdrawalState);
      }
      if request.walletId !in wallets {
        return Failure(WalletNotFound);
      }
      var wallet := wallets[request.walletId];
      if wallet.pending < request.amount {
        return Failure(PendingInsufficient);
      }
      wallet := wallet.(pending := wallet.pending - request.amount);
      UpdateWallet(wallet);
      request := request.(status := status, rejectedBy := Some(actor), notes := notes);
      UpdateRequest(request);
      AppendLedger(wallet, ReleaseEntry, request.amount, Some(request.id));
      r := Success(request);
    }

    method AnnotateWithdrawal(requestId: Id, metadata: Metadata) returns (r: Result<Request, WalletError>)
      requires Valid()
      modifies this
      ensures Valid()
      ensures (View(), r) == AnnotateSpec(old(View()), requestId, metadata)
    {
      if requestId !in requests {
        return Failure(WithdrawalNotFound);
      }
      var request := requests[requestId];
      request := request.(metadata := request.metadata + metadata);
      UpdateRequest(request);
      r := Success(request);
    }
  }
}
