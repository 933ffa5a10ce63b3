/** What every run of the point wallet service keeps: ledger replay, conservation
    of the balance, the bookkeeping of holds and the life cycle of a request. */
module PointWalletLaws {
  import opened Wrappers
  import opened PointWallet

  // ------------------------------------------------------------ vocabulary

  const OPEN: set<RequestStatus> := {Pending, ApprovedStage1}
  const PAID: set<RequestStatus> := {Approved}

  function Share(requests: map<Id, Request>, id: Id, w: Id, which: set<RequestStatus>): int {
    if id in requests && requests[id].walletId == w && requests[id].status in which then requests[id].amount else 0
  }

  /** Sum of the amounts of wallet w's requests with an id below n and a status in which. */
  function Sum(requests: map<Id, Request>, w: Id, which: set<RequestStatus>, n: nat): int {
    if n == 0 then 0 else Sum(requests, w, which, n - 1) + Share(requests, n - 1, w, which)
  }

  function Holds(s: State, w: Id): int { Sum(s.requests, w, OPEN, s.nextId) }

  function PaidOut(s: State, w: Id): int { Sum(s.requests, w, PAID, s.nextId) }

  function Total(ledger: seq<LedgerEntry>, w: Id, kind: EntryKind): int {
    if ledger == [] then 0
    else
      var e := ledger[|ledger| - 1];
      Total(ledger[..|ledger| - 1], w, kind) + if e.walletId == w && e.kind == kind then e.amount else 0
  }

  predicate Withdrawn(ledger: seq<LedgerEntry>, reference: Option<Id>) {
    exists i :: 0 <= i < |ledger| && ledger[i].kind == WithdrawalEntry && ledger[i].reference == reference
  }

  /** What entry e does to the balance of its wallet, given the entries before it. */
  function BalanceEffect(before: seq<LedgerEntry>, e: LedgerEntry): int {
    match e.kind
    case CreditEntry => e.amount
    case DebitEntry => -e.amount
    case WithdrawalEntry => -e.amount
    case HoldEntry => 0
    case ReleaseEntry => if Withdrawn(before, e.reference) then e.amount else 0
  }

  /** What entry e does to the pending amount of its wallet, given the entries before it. */
  function PendingEffect(before: seq<LedgerEntry>, e: LedgerEntry): int {
    match e.kind
    case CreditEntry => 0
    case DebitEntry => 0
    case WithdrawalEntry => -e.amount
    case HoldEntry => e.amount
    case ReleaseEntry => if Withdrawn(before, e.reference) then 0 else -e.amount
  }

  function Replay(ledger: seq<LedgerEntry>, w: Id): (figures: (int, int)) {
    if ledger == [] then (0, 0)
    else
      var before, e := ledger[..|ledger| - 1], ledger[|ledger| - 1];
      var (balance, pending) := Replay(before, w);
      if e.walletId == w then (balance + BalanceEffect(before, e), pending + PendingEffect(before, e))
      else (balance, pending)
  }

  // ------------------------------------------------------------ invariants

  ghost predicate WalletsOk(wallets: map<Id, Wallet>, byUser: map<string, Id>, nextId: Id) {
    && (forall w :: w in wallets ==> wallets[w].id == w && w < nextId)
    && (forall u :: u in byUser ==> byUser[u] in wallets && wallets[byUser[u]].userId == u)
    && (forall w :: w in wallets ==> wallets[w].userId in byUser && byUser[wallets[w].userId] == w)
  }

  ghost predicate RequestsOk(requests: map<Id, Request>, wallets: map<Id, Wallet>, nextId: Id) {
    forall r :: r in requests ==>
      requests[r].id == r && r < nextId && requests[r].amount > 0 && requests[r].walletId in wallets
  }

  ghost predicate LedgerOk(ledger: seq<LedgerEntry>, wallets: map<Id, Wallet>, requests: map<Id, Request>) {
    forall i :: 0 <= i < |ledger| ==>
      && ledger[i].walletId in wallets
      && (ledger[i].kind == WithdrawalEntry ==> ledger[i].reference.Some? && ledger[i].reference.value in requests)
  }

  ghost predicate Structure(s: State) {
    && WalletsOk(s.wallets, s.byUser, s.nextId)
    && RequestsOk(s.requests, s.wallets, s.nextId)
    && LedgerOk(s.ledger, s.wallets, s.requests)
  }

  /** The ledger holds a withdrawal entry of request r if it is approved, and none while it is held. */
  ghost predicate Traced(requests: map<Id, Request>, ledger: seq<LedgerEntry>, r: Id) {
    r in requests ==>
      && (Holding(requests[r].status) ==> !Withdrawn(ledger, Some(r)))
      && (requests[r].status == Approved ==> Withdrawn(ledger, Some(r)))
  }

  ghost predicate Trail(requests: map<Id, Request>, ledger: seq<LedgerEntry>) {
    forall r {:trigger Traced(requests, ledger, r)} :: Traced(requests, ledger, r)
  }

  /** Replaying the ledger up to an entry gives that entry's balance_after. */
  ghost predicate BalanceRow(ledger: seq<LedgerEntry>, i: nat) {
    i < |ledger| ==> ledger[i].balanceAfter == Replay(ledger[..i + 1], ledger[i].walletId).0
  }

  ghost predicate BalanceColumn(ledger: seq<LedgerEntry>) {
    forall i: nat {:trigger BalanceRow(ledger, i)} :: BalanceRow(ledger, i)
  }

  /** Replaying the ledger up to an entry gives that entry's pending_after. */
  ghost predicate PendingRow(ledger: seq<LedgerEntry>, i: nat) {
    i < |ledger| ==> ledger[i].pendingAfter == Replay(ledger[..i + 1], ledger[i].walletId).1
  }

  ghost predicate PendingColumn(ledger: seq<LedgerEntry>) {
    forall i: nat {:trigger PendingRow(ledger, i)} :: PendingRow(ledger, i)
  }

  /** What holds of wallet w on every run: the ledger replays to its balance, the balance
      is what was credited less what was debited and what is paid out, and pending never
      exceeds the open holds. */
  ghost predicate Books(s: State, w: Id) {
    w in s.wallets ==>
      && s.wallets[w].balance == Replay(s.ledger, w).0
      && s.wallets[w].balance == Total(s.ledger, w, CreditEntry) - Total(s.ledger, w, DebitEntry) - PaidOut(s, w)
      && s.wallets[w].pending <= Holds(s, w)
  }

  ghost predicate Inv(s: State) {
    && Structure(s) && Trail(s.requests, s.ledger) && BalanceColumn(s.ledger)
    && forall w {:trigger Books(s, w)} :: Books(s, w)
  }

  // --------------------------------------------------------------- sums

  lemma {:induction false} SumReplace(requests: map<Id, Request>, r: Request, w: Id, which: set<RequestStatus>, n: nat)
    ensures Sum(requests[r.id := r], w, which, n)
         == Sum(requests, w, which, n)
            + if r.id < n then Share(requests[r.id := r], r.id, w, which) - Share(requests, r.id, w, which) else 0
  {
    if n > 0 {
      SumReplace(requests, r, w, which, n - 1);
    }
  }

  lemma {:induction false} SumNonNegative(requests: map<Id, Request>, w: Id, which: set<RequestStatus>, n: nat)
    requires forall r :: r in requests ==> requests[r].amount > 0
    ensures Sum(requests, w, which, n) >= 0
    ensures forall r :: r in requests && r < n && requests[r].walletId == w && requests[r].status in which
              ==> requests[r].amount <= Sum(requests, w, which, n)
  {
    if n > 0 {
      SumNonNegative(requests, w, which, n - 1);
    }
  }

  lemma {:induction false} SumForeign(requests: map<Id, Request>, w: Id, which: set<RequestStatus>, n: nat)
    requires forall r :: r in requests ==> requests[r].walletId != w
    ensures Sum(requests, w, which, n) == 0
  {
    if n > 0 {
      SumForeign(requests, w, which, n - 1);
    }
  }

  lemma {:induction false} ForeignLedger(ledger: seq<LedgerEntry>, w: Id)
    requires forall i :: 0 <= i < |ledger| ==> ledger[i].walletId != w
    ensures Replay(ledger, w) == (0, 0)
    ensures forall kind :: Total(ledger, w, kind) == 0
  {
    if ledger != [] {
      ForeignLedger(ledger[..|ledger| - 1], w);
    }
  }

  // ---------------------------------------------------------- ledger entries

  lemma Appended(ledger: seq<LedgerEntry>, e: LedgerEntry, w: Id)
    ensures var mine := e.walletId == w;
      && Replay(ledger + [e], w).0 == Replay(ledger, w).0 + (if mine then BalanceEffect(ledger, e) else 0)
      && Replay(ledger + [e], w).1 == Replay(ledger, w).1 + (if mine then PendingEffect(ledger, e) else 0)
      && forall kind :: Total(ledger + [e], w, kind)
                     == Total(ledger, w, kind) + if mine && e.kind == kind then e.amount else 0
  {
    assert (ledger + [e])[..|ledger + [e]| - 1] == ledger;
  }

  function Entry(w: Wallet, kind: EntryKind, amount: int, reference: Option<Id>): LedgerEntry {
    LedgerEntry(w.id, kind, amount, w.balance, w.pending, reference)
  }

  lemma WithdrawnAppended(ledger: seq<LedgerEntry>, e: LedgerEntry, x: Option<Id>)
    ensures Withdrawn(ledger + [e], x) <==> Withdrawn(ledger, x) || (e.kind == WithdrawalEntry && e.reference == x)
  {
    assert (ledger + [e])[|ledger|] == e;
    if Withdrawn(ledger, x) {
      var i :| 0 <= i < |ledger| && ledger[i].kind == WithdrawalEntry && ledger[i].reference == x;
      assert (ledger + [e])[i] == ledger[i];
    }
  }

  lemma BalanceColumnAppended(ledger: seq<LedgerEntry>, e: LedgerEntry)
    requires BalanceColumn(ledger)
    requires e.balanceAfter == Replay(ledger, e.walletId).0 + BalanceEffect(ledger, e)
    ensures BalanceColumn(ledger + [e])
  {
    forall i: nat ensures BalanceRow(ledger + [e], i) {
      if i < |ledger| {
        assert BalanceRow(ledger, i);
        assert (ledger + [e])[..i + 1] == ledger[..i + 1];
      } else if i == |ledger| {
        assert (ledger + [e])[..i + 1] == ledger + [e];
        Appended(ledger, e, e.walletId);
      }
    }
  }

  lemma PendingColumnAppended(ledger: seq<LedgerEntry>, e: LedgerEntry)
    requires PendingColumn(ledger)
    requires e.pendingAfter == Replay(ledger, e.walletId).1 + PendingEffect(ledger, e)
    ensures PendingColumn(ledger + [e])
  {
    forall i: nat ensures PendingRow(ledger + [e], i) {
      if i < |ledger| {
        assert PendingRow(ledger, i);
        assert (ledger + [e])[..i + 1] == ledger[..i + 1];
      } else if i == |ledger| {
        assert (ledger + [e])[..i + 1] == ledger + [e];
        Appended(ledger, e, e.walletId);
      }
    }
  }

  // ------------------------------------------------- the shapes of a change

  /** Request r, new or old, may replace what is stored, with wallet w and one entry of this kind. */
  ghost predicate Settlement(s: State, w: Wallet, r: Request, kind: EntryKind) {
    && w.id in s.wallets && w.userId == s.wallets[w.id].userId
    && r.walletId == w.id && r.amount > 0 && r.id < s.nextId
    && (r.id in s.requests ==> s.requests[r.id].walletId == w.id && s.requests[r.id].amount == r.amount)
    && kind in {HoldEntry, ReleaseEntry, WithdrawalEntry}
    && (kind == WithdrawalEntry <==> r.status == Approved)
    && (Holding(r.status) ==> !Withdrawn(s.ledger, Some(r.id)))
  }

  function Before(s: State, r: Request, which: set<RequestStatus>): int {
    if r.id in s.requests && s.requests[r.id].status in which then r.amount else 0
  }

  function After(r: Request, which: set<RequestStatus>): int {
    if r.status in which then r.amount else 0
  }

  lemma SettleTrail(requests: map<Id, Request>, ledger: seq<LedgerEntry>, r: Request, e: LedgerEntry)
    requires Trail(requests, ledger) && e.reference == Some(r.id)
    requires e.kind == WithdrawalEntry <==> r.status == Approved
    requires Holding(r.status) ==> !Withdrawn(ledger, Some(r.id))
    ensures Trail(requests[r.id := r], ledger + [e])
  {
    var requests', ledger' := requests[r.id := r], ledger + [e];
    forall x ensures Traced(requests', ledger', x) {
      assert Traced(requests, ledger, x);
      WithdrawnAppended(ledger, e, Some(x));
    }
  }

  lemma SettleSums(s: State, w: Wallet, r: Request, kind: EntryKind, x: Id)
    requires Settlement(s, w, r, kind)
    ensures Holds(Settle(s, w, r, kind), x)
         == Holds(s, x) + if x == w.id then After(r, OPEN) - Before(s, r, OPEN) else 0
    ensures PaidOut(Settle(s, w, r, kind), x)
         == PaidOut(s, x) + if x == w.id then After(r, PAID) - Before(s, r, PAID) else 0
  {
    SumReplace(s.requests, r, x, OPEN, s.nextId);
    SumReplace(s.requests, r, x, PAID, s.nextId);
  }

  lemma SettleStructure(s: State, w: Wallet, r: Request, kind: EntryKind)
    requires Structure(s) && Settlement(s, w, r, kind)
    ensures Structure(Settle(s, w, r, kind))
  {
  }

  /** A settlement that takes from the balance what it adds to the payouts, and
      raises pending by no more than it adds to the holds, keeps the books. */
  lemma SettleKeeps(s: State, w: Wallet, r: Request, kind: EntryKind)
    requires Inv(s) && Settlement(s, w, r, kind)
    requires w.balance == s.wallets[w.id].balance - After(r, PAID) + Before(s, r, PAID)
    requires w.balance == s.wallets[w.id].balance + BalanceEffect(s.ledger, Entry(w, kind, r.amount, Some(r.id)))
    requires w.pending <= Holds(s, w.id) + After(r, OPEN) - Before(s, r, OPEN)
    ensures Inv(Settle(s, w, r, kind))
  {
    var s', e := Settle(s, w, r, kind), Entry(w, kind, r.amount, Some(r.id));
    SettleStructure(s, w, r, kind);
    SettleTrail(s.requests, s.ledger, r, e);
    assert Books(s, w.id);
    BalanceColumnAppended(s.ledger, e);
    forall x ensures Books(s', x) {
      assert Books(s, x);
      SettleBooks(s, w, r, kind, x);
    }
  }

  lemma SettleBooks(s: State, w: Wallet, r: Request, kind: EntryKind, x: Id)
    requires Settlement(s, w, r, kind) && Books(s, x)
    requires w.balance == s.wallets[w.id].balance - After(r, PAID) + Before(s, r, PAID)
    requires w.balance == s.wallets[w.id].balance + BalanceEffect(s.ledger, Entry(w, kind, r.amount, Some(r.id)))
    requires w.pending <= Holds(s, w.id) + After(r, OPEN) - Before(s, r, OPEN)
    ensures Books(Settle(s, w, r, kind), x)
  {
    SettleSums(s, w, r, kind, x);
    Appended(s.ledger, Entry(w, kind, r.amount, Some(r.id)), x);
  }

  /** Credit and debit: one wallet's balance changes with one entry; requests do not. */
  lemma PostKeeps(s: State, w: Wallet, kind: EntryKind, amount: int, reference: Option<Id>)
    requires Inv(s) && w.id in s.wallets && kind in {CreditEntry, DebitEntry}
    requires w.userId == s.wallets[w.id].userId && w.pending == s.wallets[w.id].pending
    requires w.balance == s.wallets[w.id].balance + if kind == CreditEntry then amount else -amount
    ensures Inv(Post(s, w, kind, amount, reference))
  {
    var s', e := Post(s, w, kind, amount, reference), Entry(w, kind, amount, reference);
    assert Books(s, w.id);
    BalanceColumnAppended(s.ledger, e);
    forall x ensures Books(s', x) {
      assert Books(s, x);
      Appended(s.ledger, e, x);
    }
    forall x ensures Traced(s'.requests, s'.ledger, x) {
      assert Traced(s.requests, s.ledger, x);
      WithdrawnAppended(s.ledger, e, Some(x));
    }
  }

  /** Changing a request without its amount, wallet or hold keeps everything. */
  lemma RelabelKeeps(s: State, r: Request)
    requires r.id in s.requests
    requires r.walletId == s.requests[r.id].walletId && r.amount == s.requests[r.id].amount
    requires r.status == s.requests[r.id].status || (s.requests[r.id].status == Pending && r.status == ApprovedStage1)
    ensures var s' := s.(requests := s.requests[r.id := r]);
      && (forall x :: Holds(s', x) == Holds(s, x) && PaidOut(s', x) == PaidOut(s, x))
      && (Inv(s) ==> Inv(s'))
  {
    var s' := s.(requests := s.requests[r.id := r]);
    forall x: Id ensures Holds(s', x) == Holds(s, x) && PaidOut(s', x) == PaidOut(s, x) {
      SumReplace(s.requests, r, x, OPEN, s.nextId);
      SumReplace(s.requests, r, x, PAID, s.nextId);
    }
    if Inv(s) {
      assert Structure(s');
      forall x ensures Traced(s'.requests, s'.ledger, x) {
        assert Traced(s.requests, s.ledger, x);
      }
      forall x ensures Books(s', x) {
        assert Books(s, x);
      }
    }
  }

  lemma NextIdKeeps(s: State)
    requires RequestsOk(s.requests, s.wallets, s.nextId)
    ensures var s' := s.(nextId := s.nextId + 1);
      && (forall x :: Holds(s', x) == Holds(s, x) && PaidOut(s', x) == PaidOut(s, x))
      && (Inv(s) ==> Inv(s'))
  {
    if Inv(s) {
      var s' := s.(nextId := s.nextId + 1);
      forall x ensures Books(s', x) {
        assert Books(s, x);
      }
    }
  }

  // ------------------------------------------------- one step keeps Inv

  lemma EnsureWalletFigures(s: State, userId: string, x: Id)
    requires Structure(s)
    ensures var s' := EnsureWalletSpec(s, userId);
      && Holds(s', x) == Holds(s, x) && PaidOut(s', x) == PaidOut(s, x)
      && (x in s'.wallets && x !in s.wallets ==>
            && s'.wallets[x].balance == s'.wallets[x].pending == 0
            && Holds(s, x) == PaidOut(s, x) == 0
            && Replay(s.ledger, x) == (0, 0)
            && forall kind :: Total(s.ledger, x, kind) == 0)
  {
    NextIdKeeps(s);
    if x !in s.wallets {
      ForeignLedger(s.ledger, x);
      SumForeign(s.requests, x, OPEN, s.nextId);
      SumForeign(s.requests, x, PAID, s.nextId);
    }
  }

  lemma EnsureWalletKeeps(s: State, userId: string)
    requires Inv(s)
    ensures Inv(EnsureWalletSpec(s, userId)) && HasWallet(EnsureWalletSpec(s, userId), userId)
  {
    var s' := EnsureWalletSpec(s, userId);
    assert Structure(s');
    forall x ensures Books(s', x) {
      assert Books(s, x);
      EnsureWalletFigures(s, userId, x);
    }
  }

  lemma CreditKeeps(s: State, userId: string, amount: int, ref: Option<Id>)
    requires Inv(s)
    ensures Inv(CreditSpec(s, userId, amount, ref).0)
  {
    EnsureWalletKeeps(s, userId);
    var s1 := EnsureWalletSpec(s, userId);
    var w := s1.wallets[s1.byUser[userId]];
    if w.status == Active && amount > 0 {
      var w' := w.(balance := w.balance + amount);
      PostKeeps(s1, w', CreditEntry, amount, ref);
      assert CreditSpec(s, userId, amount, ref).0 == Post(s1, w', CreditEntry, amount, ref);
    }
  }

  lemma DebitKeeps(s: State, w: Id, a: int, ref: Option<Id>)
    requires Inv(s)
    ensures Inv(DebitSpec(s, w, a, ref).0)
  {
    if w in s.wallets && SpendGuard(s.wallets[w], a).None? {
      var w' := s.wallets[w].(balance := s.wallets[w].balance - a);
      PostKeeps(s, w', DebitEntry, a, ref);
      assert DebitSpec(s, w, a, ref).0 == Post(s, w', DebitEntry, a, ref);
    } else {
      assert DebitSpec(s, w, a, ref).0 == s;
    }
  }

  lemma RequestKeeps(s: State, w: Id, a: int, actor: string, ref: Option<Id>, meta: Metadata)
    requires Inv(s)
    ensures Inv(RequestSpec(s, w, a, actor, ref, meta).0)
  {
    var (s', result) := RequestSpec(s, w, a, actor, ref, meta);
    if result.Success? {
      NextIdKeeps(s);
      assert Books(s, w);
      assert !Withdrawn(s.ledger, Some(s.nextId));
      SettleKeeps(s.(nextId := s.nextId + 1), s'.wallets[w], result.value, HoldEntry);
    }
  }

  lemma ApproveKeeps(s: State, r: Id, actor: string, notes: Option<string>)
    requires Inv(s)
    ensures Inv(ApproveSpec(s, r, actor, notes).0)
  {
    var (s', result) := ApproveSpec(s, r, actor, notes);
    if result.Success? {
      assert Books(s, s.requests[r].walletId) && Traced(s.requests, s.ledger, r);
      SettleKeeps(s, s'.wallets[s.requests[r].walletId], result.value, WithdrawalEntry);
    }
  }

  lemma FailKeeps(s: State, r: Id, actor: string, notes: Option<string>)
    requires Inv(s)
    ensures Inv(FailSpec(s, r, actor, notes).0)
  {
    var (s', result) := FailSpec(s, r, actor, notes);
    if result.Success? {
      assert Books(s, s.requests[r].walletId) && Traced(s.requests, s.ledger, r);
      var request := s.requests[r];
      SumNonNegative(s.requests, request.walletId, OPEN, s.nextId);
      SettleKeeps(s, s'.wallets[request.walletId], result.value, ReleaseEntry);
    }
  }

  lemma ReleaseKeeps(s: State, r: Id, status: RequestStatus, actor: string, notes: Option<string>)
    requires Inv(s) && status in {Rejected, Cancelled}
    ensures Inv(ReleaseSpec(s, r, status, actor, notes).0)
  {
    var (s', result) := ReleaseSpec(s, r, status, actor, notes);
    if result.Success? {
      assert Books(s, s.requests[r].walletId) && Traced(s.requests, s.ledger, r);
      SettleKeeps(s, s'.wallets[s.requests[r].walletId], result.value, ReleaseEntry);
    }
  }

  lemma Stage1Keeps(s: State, r: Id, actor: string, notes: Option<string>, meta: Metadata)
    requires Structure(s)
    ensures var s' := Stage1Spec(s, r, actor, notes, meta).0;
      (forall x :: Holds(s', x) == Holds(s, x)) && (Inv(s) ==> Inv(s'))
  {
    var result := Stage1Spec(s, r, actor, notes, meta).1;
    if result.Success? {
      RelabelKeeps(s, result.value);
    }
  }

  lemma AnnotateKeeps(s: State, r: Id, meta: Metadata)
    requires Structure(s)
    ensures var s' := AnnotateSpec(s, r, meta).0;
      (forall x :: Holds(s', x) == Holds(s, x)) && (Inv(s) ==> Inv(s'))
  {
    var result := AnnotateSpec(s, r, meta).1;
    if result.Success? {
      RelabelKeeps(s, result.value);
    }
  }

  lemma SetStatusKeeps(s: State, w: Id, status: WalletStatus)
    requires Inv(s)
    ensures Inv(Step(s, SetStatus(w, status)))
  {
    var s' := Step(s, SetStatus(w, status));
    assert Structure(s');
    forall x ensures Books(s', x) {
      assert Books(s, x);
    }
  }

  lemma StepKeeps(s: State, op: Op)
    requires Inv(s)
    ensures Inv(Step(s, op))
  {
    match op
    case EnsureWallet(u) => EnsureWalletKeeps(s, u);
    case Credit(u, a, ref) => CreditKeeps(s, u, a, ref);
    case Debit(w, a, ref) => DebitKeeps(s, w, a, ref);
    case RequestWithdrawal(w, a, actor, ref, meta) => RequestKeeps(s, w, a, actor, ref, meta);
    case Approve(r, actor, notes) => ApproveKeeps(s, r, actor, notes);
    case MarkStage1(r, actor, notes, meta) =>
      Stage1Keeps(s, r, actor, notes, meta);
    case Fail(r, actor, notes) => FailKeeps(s, r, actor, notes);
    case Reject(r, actor, notes) => ReleaseKeeps(s, r, Rejected, actor, notes);
    case Cancel(r, actor) =>
      ReleaseKeeps(s, r, Cancelled, actor, if r in s.requests then s.requests[r].notes else None);
    case Annotate(r, meta) =>
      AnnotateKeeps(s, r, meta);
    case SetStatus(w, status) => SetStatusKeeps(s, w, status);
  }

  /** On every run: the ledger replays, the balance is what was credited less what was
      debited and paid out, and pending never exceeds the holds. */
  lemma {:induction false} RunKeeps(ops: seq<Op>)
    ensures Inv(Run(ops))
  {
    if ops != [] {
      RunKeeps(ops[..|ops| - 1]);
      StepKeeps(Run(ops[..|ops| - 1]), ops[|ops| - 1]);
    }
  }

  // --------------------------------------------------------- clean runs

  ghost predicate ExactAt(s: State, w: Id) {
    w in s.wallets ==> s.wallets[w].pending == Holds(s, w)
  }

  /** Every wallet's pending amount is the sum of its open requests. */
  ghost predicate PendingExact(s: State) {
    forall w {:trigger ExactAt(s, w)} :: ExactAt(s, w)
  }

  /** The call, if it fails an approved request, finds no other hold open on that wallet. */
  ghost predicate CleanStep(s: State, op: Op) {
    op.Fail? && op.requestId in s.requests && s.requests[op.requestId].status == Approved
    ==> Holds(s, s.requests[op.requestId].walletId) == 0
  }

  ghost predicate CleanRun(ops: seq<Op>) {
    ops != [] ==> CleanRun(ops[..|ops| - 1]) && CleanStep(Run(ops[..|ops| - 1]), ops[|ops| - 1])
  }

  /** Pending is exact after every prefix of the run. */
  ghost predicate ExactThroughout(ops: seq<Op>) {
    PendingExact(Run(ops)) && (ops != [] ==> ExactThroughout(ops[..|ops| - 1]))
  }

  /** A settlement keeps pending exact if and only if it moves pending by the change of the holds. */
  lemma SettleExact(s: State, w: Wallet, r: Request, kind: EntryKind)
    requires Settlement(s, w, r, kind) && PendingExact(s)
    ensures PendingExact(Settle(s, w, r, kind))
       <==> w.pending == s.wallets[w.id].pending + After(r, OPEN) - Before(s, r, OPEN)
  {
    var s' := Settle(s, w, r, kind);
    assert ExactAt(s, w.id);
    SettleSums(s, w, r, kind, w.id);
    assert ExactAt(s', w.id) <==> w.pending == s.wallets[w.id].pending + After(r, OPEN) - Before(s, r, OPEN);
    forall x | x != w.id ensures ExactAt(s', x) {
      assert ExactAt(s, x);
      SettleSums(s, w, r, kind, x);
    }
  }

  /** Changes that leave every pending amount and every request's hold alone. */
  lemma SameHoldsExact(s: State, s': State)
    requires forall x :: Holds(s', x) == Holds(s, x)
    requires forall x :: x in s.wallets ==> x in s'.wallets && s'.wallets[x].pending == s.wallets[x].pending
    requires forall x :: x in s'.wallets && x !in s.wallets ==> s'.wallets[x].pending == Holds(s, x)
    requires PendingExact(s)
    ensures PendingExact(s')
  {
    forall x ensures ExactAt(s', x) {
      assert ExactAt(s, x);
    }
  }

  lemma EnsureWalletExact(s: State, userId: string)
    requires Structure(s) && PendingExact(s)
    ensures PendingExact(EnsureWalletSpec(s, userId))
  {
    forall x: Id {
      EnsureWalletFigures(s, userId, x);
    }
    SameHoldsExact(s, EnsureWalletSpec(s, userId));
  }

  lemma CreditExact(s: State, userId: string, amount: int, ref: Option<Id>)
    requires Structure(s) && PendingExact(s)
    ensures PendingExact(CreditSpec(s, userId, amount, ref).0)
  {
    EnsureWalletExact(s, userId);
    SameHoldsExact(EnsureWalletSpec(s, userId), CreditSpec(s, userId, amount, ref).0);
  }

  lemma DebitExact(s: State, w: Id, a: int, ref: Option<Id>)
    requires Structure(s) && PendingExact(s)
    ensures PendingExact(DebitSpec(s, w, a, ref).0)
  {
    SameHoldsExact(s, DebitSpec(s, w, a, ref).0);
  }

  /** Calls that move no money change no figure and no hold. */
  lemma RelabelFigures(s: State, op: Op)
    requires Structure(s) && (op.MarkStage1? || op.Annotate? || op.SetStatus?)
    ensures var s' := Step(s, op);
      && (forall x :: Holds(s', x) == Holds(s, x))
      && s'.ledger == s.ledger && s'.wallets.Keys == s.wallets.Keys
      && forall x :: x in s.wallets ==>
           s'.wallets[x].pending == s.wallets[x].pending && s'.wallets[x].balance == s.wallets[x].balance
  {
    match op
    case MarkStage1(r, actor, notes, meta) => Stage1Keeps(s, r, actor, notes, meta);
    case Annotate(r, meta) => AnnotateKeeps(s, r, meta);
    case _ =>
  }

  lemma RelabelExact(s: State, op: Op)
    requires Structure(s) && PendingExact(s) && (op.MarkStage1? || op.Annotate? || op.SetStatus?)
    ensures PendingExact(Step(s, op))
  {
    RelabelFigures(s, op);
    SameHoldsExact(s, Step(s, op));
  }

  lemma RequestExact(s: State, w: Id, a: int, actor: string, ref: Option<Id>, meta: Metadata)
    requires Inv(s) && PendingExact(s)
    ensures PendingExact(RequestSpec(s, w, a, actor, ref, meta).0)
  {
    var (s', result) := RequestSpec(s, w, a, actor, ref, meta);
    if result.Success? {
      NextIdKeeps(s);
      var s1 := s.(nextId := s.nextId + 1);
      SameHoldsExact(s, s1);
      SettleExact(s1, s'.wallets[w], result.value, HoldEntry);
    }
  }

  lemma ApproveExact(s: State, r: Id, actor: string, notes: Option<string>)
    requires Inv(s) && PendingExact(s)
    ensures PendingExact(ApproveSpec(s, r, actor, notes).0)
  {
    var (s', result) := ApproveSpec(s, r, actor, notes);
    if result.Success? {
      SettleExact(s, s'.wallets[s.requests[r].walletId], result.value, WithdrawalEntry);
    }
  }

  lemma ReleaseExact(s: State, r: Id, status: RequestStatus, actor: string, notes: Option<string>)
    requires Inv(s) && PendingExact(s) && status in {Rejected, Cancelled}
    ensures PendingExact(ReleaseSpec(s, r, status, actor, notes).0)
  {
    var (s', result) := ReleaseSpec(s, r, status, actor, notes);
    if result.Success? {
      SettleExact(s, s'.wallets[s.requests[r].walletId], result.value, ReleaseEntry);
    }
  }

  /** From an exact state, failing a withdrawal keeps pending exact if and only if the
      request was not approved or no other hold is open on its wallet. */
  lemma FailExact(s: State, r: Id, actor: string, notes: Option<string>)
    requires Inv(s) && PendingExact(s)
    ensures PendingExact(FailSpec(s, r, actor, notes).0) <==> CleanStep(s, Fail(r, actor, notes))
  {
    var (s', result) := FailSpec(s, r, actor, notes);
    if result.Success? {
      var w := s.requests[r].walletId;
      assert ExactAt(s, w) && Traced(s.requests, s.ledger, r);
      SumNonNegative(s.requests, w, OPEN, s.nextId);
      SettleExact(s, s'.wallets[w], result.value, ReleaseEntry);
    }
  }

  /** Approving a request and failing it again keeps pending exact if and only if it was
      the only request on hold. */
  lemma ApproveThenFailExact(s: State, r: Id, actor: string, notes: Option<string>, reason: Option<string>)
    requires Inv(s) && PendingExact(s) && ApproveSpec(s, r, actor, notes).1.Success?
    ensures r in s.requests
    ensures PendingExact(FailSpec(ApproveSpec(s, r, actor, notes).0, r, actor, reason).0)
       <==> Holds(s, s.requests[r].walletId) == s.requests[r].amount
  {
    var (s1, approved) := ApproveSpec(s, r, actor, notes);
    var w := s.requests[r].walletId;
    ApproveKeeps(s, r, actor, notes);
    ApproveExact(s, r, actor, notes);
    FailExact(s1, r, actor, reason);
    assert Holds(s1, w) == Holds(s, w) - s.requests[r].amount by {
      SettleSums(s, s1.wallets[w], approved.value, WithdrawalEntry, w);
    }
    assert s1.requests[r] == approved.value;
  }

  /** From an exact state, one call keeps pending exact if and only if it is clean. */
  lemma StepExact(s: State, op: Op)
    requires Inv(s) && PendingExact(s)
    ensures PendingExact(Step(s, op)) <==> CleanStep(s, op)
  {
    match op
    case EnsureWallet(u) => EnsureWalletExact(s, u);
    case Credit(u, a, ref) => CreditExact(s, u, a, ref);
    case Debit(w, a, ref) => DebitExact(s, w, a, ref);
    case RequestWithdrawal(w, a, actor, ref, meta) => RequestExact(s, w, a, actor, ref, meta);
    case Approve(r, actor, notes) => ApproveExact(s, r, actor, notes);
    case MarkStage1(r, actor, notes, meta) => RelabelExact(s, op);
    case Fail(r, actor, notes) => FailExact(s, r, actor, notes);
    case Reject(r, actor, notes) => ReleaseExact(s, r, Rejected, actor, notes);
    case Cancel(r, actor) =>
      ReleaseExact(s, r, Cancelled, actor, if r in s.requests then s.requests[r].notes else None);
    case Annotate(r, meta) => RelabelExact(s, op);
    case SetStatus(w, status) => RelabelExact(s, op);
  }

  /** Pending equals the open holds at every point of a run if and only if the run is clean. */
  lemma {:induction false} ExactIffClean(ops: seq<Op>)
    ensures ExactThroughout(ops) <==> CleanRun(ops)
    ensures CleanRun(ops) ==> PendingExact(Run(ops))
  {
    if ops == [] {
      assert forall w :: ExactAt(EMPTY, w);
    } else {
      var before := ops[..|ops| - 1];
      ExactIffClean(before);
      RunKeeps(before);
      if PendingExact(Run(before)) {
        StepExact(Run(before), ops[|ops| - 1]);
      }
    }
  }

  /** On a clean run the pending amount also replays, and lies between zero and the balance. */
  ghost predicate SolventAt(s: State, w: Id) {
    w in s.wallets ==>
      && 0 <= s.wallets[w].pending == Holds(s, w) <= s.wallets[w].balance
      && s.wallets[w].pending == Replay(s.ledger, w).1
  }

  ghost predicate Solvent(s: State) {
    PendingColumn(s.ledger) && forall w {:trigger SolventAt(s, w)} :: SolventAt(s, w)
  }

  lemma SettleSolvent(s: State, w: Wallet, r: Request, kind: EntryKind)
    requires Inv(s) && Solvent(s) && Settlement(s, w, r, kind)
    requires w.pending == s.wallets[w.id].pending + After(r, OPEN) - Before(s, r, OPEN)
    requires w.pending == s.wallets[w.id].pending + PendingEffect(s.ledger, Entry(w, kind, r.amount, Some(r.id)))
    requires w.pending <= w.balance
    ensures Solvent(Settle(s, w, r, kind))
  {
    var s', e := Settle(s, w, r, kind), Entry(w, kind, r.amount, Some(r.id));
    assert SolventAt(s, w.id);
    PendingColumnAppended(s.ledger, e);
    SettleStructure(s, w, r, kind);
    forall x ensures SolventAt(s', x) {
      assert SolventAt(s, x);
      SettleSums(s, w, r, kind, x);
      Appended(s.ledger, e, x);
      SumNonNegative(s'.requests, x, OPEN, s'.nextId);
    }
  }

  lemma PostSolvent(s: State, w: Wallet, kind: EntryKind, amount: int, reference: Option<Id>)
    requires Solvent(s) && w.id in s.wallets && kind in {CreditEntry, DebitEntry}
    requires w.pending == s.wallets[w.id].pending <= w.balance
    ensures Solvent(Post(s, w, kind, amount, reference))
  {
    var s', e := Post(s, w, kind, amount, reference), Entry(w, kind, amount, reference);
    assert SolventAt(s, w.id);
    PendingColumnAppended(s.ledger, e);
    forall x ensures SolventAt(s', x) {
      assert SolventAt(s, x);
      Appended(s.ledger, e, x);
    }
  }

  /** A change that touches neither ledger nor figures. */
  lemma SameFiguresSolvent(s: State, s': State)
    requires forall x :: Holds(s', x) == Holds(s, x)
    requires s'.ledger == s.ledger && s'.wallets.Keys == s.wallets.Keys
    requires forall x :: x in s.wallets ==>
      s'.wallets[x].pending == s.wallets[x].pending && s'.wallets[x].balance == s.wallets[x].balance
    requires Solvent(s)
    ensures Solvent(s')
  {
    forall x ensures SolventAt(s', x) {
      assert SolventAt(s, x);
    }
  }

  lemma EnsureWalletSolvent(s: State, userId: string)
    requires Structure(s) && Solvent(s)
    ensures Solvent(EnsureWalletSpec(s, userId))
  {
    var s' := EnsureWalletSpec(s, userId);
    forall x ensures SolventAt(s', x) {
      assert SolventAt(s, x);
      EnsureWalletFigures(s, userId, x);
    }
  }

  lemma CreditSolvent(s: State, u: string, a: int, ref: Option<Id>)
    requires Inv(s) && Solvent(s)
    ensures Solvent(CreditSpec(s, u, a, ref).0)
  {
    EnsureWalletSolvent(s, u);
    EnsureWalletKeeps(s, u);
    var s1 := EnsureWalletSpec(s, u);
    assert SolventAt(s1, s1.byUser[u]);
    if CreditSpec(s, u, a, ref).1.Success? {
      PostSolvent(s1, CreditSpec(s, u, a, ref).1.value, CreditEntry, a, ref);
    }
  }

  lemma DebitSolvent(s: State, w: Id, a: int, ref: Option<Id>)
    requires Inv(s) && Solvent(s)
    ensures Solvent(DebitSpec(s, w, a, ref).0)
  {
    if DebitSpec(s, w, a, ref).1.Success? {
      assert SolventAt(s, w);
      PostSolvent(s, DebitSpec(s, w, a, ref).1.value, DebitEntry, a, ref);
    }
  }

  lemma RequestSolvent(s: State, w: Id, a: int, actor: string, ref: Option<Id>, meta: Metadata)
    requires Inv(s) && Solvent(s)
    ensures Solvent(RequestSpec(s, w, a, actor, ref, meta).0)
  {
    var (s', result) := RequestSpec(s, w, a, actor, ref, meta);
    if result.Success? {
      NextIdKeeps(s);
      var s1 := s.(nextId := s.nextId + 1);
      SameFiguresSolvent(s, s1);
      assert !Withdrawn(s.ledger, Some(s.nextId));
      SettleSolvent(s1, s'.wallets[w], result.value, HoldEntry);
    }
  }

  lemma ApproveSolvent(s: State, r: Id, actor: string, notes: Option<string>)
    requires Inv(s) && Solvent(s)
    ensures Solvent(ApproveSpec(s, r, actor, notes).0)
  {
    var (s', result) := ApproveSpec(s, r, actor, notes);
    if result.Success? {
      assert SolventAt(s, s.requests[r].walletId);
      SettleSolvent(s, s'.wallets[s.requests[r].walletId], result.value, WithdrawalEntry);
    }
  }

  lemma ReleaseSolvent(s: State, r: Id, status: RequestStatus, actor: string, notes: Option<string>)
    requires Inv(s) && Solvent(s) && status in {Rejected, Cancelled}
    ensures Solvent(ReleaseSpec(s, r, status, actor, notes).0)
  {
    var (s', result) := ReleaseSpec(s, r, status, actor, notes);
    if result.Success? {
      assert SolventAt(s, s.requests[r].walletId) && Traced(s.requests, s.ledger, r);
      SettleSolvent(s, s'.wallets[s.requests[r].walletId], result.value, ReleaseEntry);
    }
  }

  lemma FailSolvent(s: State, r: Id, actor: string, notes: Option<string>)
    requires Inv(s) && Solvent(s) && CleanStep(s, Fail(r, actor, notes))
    ensures Solvent(FailSpec(s, r, actor, notes).0)
  {
    var (s', result) := FailSpec(s, r, actor, notes);
    if result.Success? {
      var w := s.requests[r].walletId;
      assert SolventAt(s, w) && Traced(s.requests, s.ledger, r);
      SumNonNegative(s.requests, w, OPEN, s.nextId);
      SettleSolvent(s, s'.wallets[w], result.value, ReleaseEntry);
    }
  }

  /** Calls that move no money. */
  lemma RelabelSolvent(s: State, op: Op)
    requires Inv(s) && Solvent(s) && (op.MarkStage1? || op.Annotate? || op.SetStatus?)
    ensures Solvent(Step(s, op))
  {
    RelabelFigures(s, op);
    SameFiguresSolvent(s, Step(s, op));
  }

  lemma StepSolvent(s: State, op: Op)
    requires Inv(s) && Solvent(s) && CleanStep(s, op)
    ensures Solvent(Step(s, op))
  {
    match op
    case EnsureWallet(u) => EnsureWalletSolvent(s, u);
    case Credit(u, a, ref) => CreditSolvent(s, u, a, ref);
    case Debit(w, a, ref) => DebitSolvent(s, w, a, ref);
    case RequestWithdrawal(w, a, actor, ref, meta) => RequestSolvent(s, w, a, actor, ref, meta);
    case Approve(r, actor, notes) => ApproveSolvent(s, r, actor, notes);
    case MarkStage1(r, actor, notes, meta) => RelabelSolvent(s, op);
    case Fail(r, actor, notes) => FailSolvent(s, r, actor, notes);
    case Reject(r, actor, notes) => ReleaseSolvent(s, r, Rejected, actor, notes);
    case Cancel(r, actor) =>
      ReleaseSolvent(s, r, Cancelled, actor, if r in s.requests then s.requests[r].notes else None);
    case Annotate(r, meta) => RelabelSolvent(s, op);
    case SetStatus(w, status) => RelabelSolvent(s, op);
  }

  /** On every clean run: pending is the sum of the open holds, lies between zero and the
      balance, and replays from the ledger at every entry. */
  lemma {:induction false} CleanRunSolvent(ops: seq<Op>)
    requires CleanRun(ops)
    ensures Solvent(Run(ops))
  {
    if ops == [] {
      assert forall w :: SolventAt(EMPTY, w);
      assert forall i: nat :: PendingRow(EMPTY.ledger, i);
    } else {
      CleanRunSolvent(ops[..|ops| - 1]);
      RunKeeps(ops[..|ops| - 1]);
      StepSolvent(Run(ops[..|ops| - 1]), ops[|ops| - 1]);
    }
  }

  /** No open request is ever stuck on a clean run: its own status decides alone (with the
      wallet's, for approval) whether it can be approved, rejected or cancelled. */
  lemma CleanRunNeverStuck(ops: seq<Op>, r: Id, actor: string, notes: Option<string>)
    requires CleanRun(ops) && r in Run(ops).requests
    ensures var s := Run(ops); var request := s.requests[r];
      && request.walletId in s.wallets
      && var ready := Holding(request.status) && s.wallets[request.walletId].status == Active;
      && (ApproveSpec(s, r, actor, notes).1.Success? <==> ready)
      && (RejectSpec(s, r, actor, notes).1.Success? <==> request.status == Pending)
      && (CancelSpec(s, r, actor).1.Success? <==> request.status == Pending)
  {
    CleanRunSolvent(ops);
    RunKeeps(ops);
    var s := Run(ops);
    var w := s.requests[r].walletId;
    assert SolventAt(s, w);
    SumNonNegative(s.requests, w, OPEN, s.nextId);
  }

  /** On a clean run what can be spent, by a debit or a new request, is exactly the balance
      less the open requests; and a failure is accepted exactly for a finally or first
      approved request. */
  lemma CleanRunSpendable(ops: seq<Op>, w: Id, amount: int, actor: string, ref: Option<Id>, meta: Metadata, r: Id, notes: Option<string>)
    requires CleanRun(ops)
    ensures var s := Run(ops);
      var spendable := w in s.wallets && s.wallets[w].status == Active && 0 < amount <= s.wallets[w].balance - Holds(s, w);
      && (DebitSpec(s, w, amount, ref).1.Success? <==> spendable)
      && (RequestSpec(s, w, amount, actor, ref, meta).1.Success? <==> spendable && (actor == "" || s.wallets[w].userId == actor))
      && (FailSpec(s, r, actor, notes).1.Success? <==> r in s.requests && s.requests[r].status in {ApprovedStage1, Approved})
  {
    CleanRunSolvent(ops);
    RunKeeps(ops);
    assert SolventAt(Run(ops), w);
  }

  lemma RunAppend(ops: seq<Op>, op: Op)
    ensures Run(ops + [op]) == Step(Run(ops), op)
  {
    assert (ops + [op])[..|ops + [op]| - 1] == ops;
  }

  /** Failing an approved request r beside an open request q and then approving q: pending
      ends at what the clamp left of the holds less q's amount, below zero exactly when r's
      amount exceeds the other holds. */
  lemma UncleanFailThenApprove(s: State, r: Id, q: Id, actor: string)
    requires Inv(s) && Solvent(s) && r in s.requests && q in s.requests
    requires s.requests[r].status == Approved && Holding(s.requests[q].status)
    requires s.requests[q].walletId == s.requests[r].walletId
    requires s.requests[q].walletId in s.wallets && s.wallets[s.requests[q].walletId].status == Active
    ensures var w := s.requests[r].walletId;
      var s1 := Step(s, Fail(r, actor, None));
      var (s2, result) := ApproveSpec(s1, q, actor, None);
      && result.Success?
      && s2.wallets[w].pending == Max(0, Holds(s, w) - s.requests[r].amount) - s.requests[q].amount
      && (s2.wallets[w].pending < 0 <==> Holds(s, w) - s.requests[q].amount < s.requests[r].amount)
  {
    var w := s.requests[r].walletId;
    assert SolventAt(s, w);
    SumNonNegative(s.requests, w, OPEN, s.nextId);
  }

  /** Two requests of 10 on a wallet of 20: approving one, failing it and approving the
      other leaves pending at minus 10. */
  lemma UncleanRunGoesNegative()
    ensures var hold := RequestWithdrawal(0, 10, "u", None, map[]);
      var ops := [Credit("u", 20, None), hold, hold, Approve(1, "a", None), Fail(1, "a", None), Approve(2, "a", None)];
      0 in Run(ops).wallets && Run(ops).wallets[0].pending == -10
  {
    var hold := RequestWithdrawal(0, 10, "u", None, map[]);
    var start := [Credit("u", 20, None), hold, hold];
    var s3 := TwoHolds();
    var s5 := ApprovedAndFailed(s3);
    var s4 := Step(s3, Approve(1, "a", None));
    RunAppend(start, Approve(1, "a", None));
    RunAppend(start + [Approve(1, "a", None)], Fail(1, "a", None));
    RunAppend(start + [Approve(1, "a", None)] + [Fail(1, "a", None)], Approve(2, "a", None));
    assert start + [Approve(1, "a", None)] + [Fail(1, "a", None)] + [Approve(2, "a", None)]
        == [Credit("u", 20, None), hold, hold, Approve(1, "a", None), Fail(1, "a", None), Approve(2, "a", None)];
  }

  lemma ApprovedAndFailed(s: State) returns (s': State)
    requires s.wallets == map[0 := Wallet(0, "u", 20, 20, Active)]
    requires forall r :: r in {1, 2} ==>
      r in s.requests && s.requests[r] == Request(r, 0, 10, Pending, "u", None, map[], None, None, None)
    ensures s' == Step(Step(s, Approve(1, "a", None)), Fail(1, "a", None))
    ensures s'.wallets == map[0 := Wallet(0, "u", 20, 0, Active)] && 2 in s'.requests && s'.requests[2] == s.requests[2]
  {
    var s1 := Step(s, Approve(1, "a", None));
    assert s1.wallets == map[0 := Wallet(0, "u", 10, 10, Active)] && s1.requests[1].status == Approved && s1.requests[2] == s.requests[2];
    s' := Step(s1, Fail(1, "a", None));
  }

  lemma TwoHolds() returns (s: State)
    ensures var hold := RequestWithdrawal(0, 10, "u", None, map[]);
      s == Run([Credit("u", 20, None), hold, hold])
    ensures s.wallets == map[0 := Wallet(0, "u", 20, 20, Active)]
    ensures forall r :: r in {1, 2} ==>
      r in s.requests && s.requests[r] == Request(r, 0, 10, Pending, "u", None, map[], None, None, None)
  {
    var credit, hold := Credit("u", 20, None), RequestWithdrawal(0, 10, "u", None, map[]);
    var none: seq<Op> := [];
    RunAppend(none, credit);
    RunAppend(none + [credit], hold);
    RunAppend(none + [credit] + [hold], hold);
    assert none + [credit] + [hold] + [hold] == [credit, hold, hold];
    s := Step(Step(Step(EMPTY, credit), hold), hold);
  }

  // -------------------------------------------------------- life of a request

  /** The status moves the service makes. */
  predicate Edge(a: RequestStatus, b: RequestStatus) {
    match a
    case Pending => b in {ApprovedStage1, Approved, Rejected, Cancelled}
    case ApprovedStage1 => b in {Approved, Failed}
    case Approved => b == Failed
    case _ => false
  }

  function Rank(status: RequestStatus): nat {
    match status
    case Pending => 0
    case ApprovedStage1 => 1
    case Approved => 2
    case _ => 3
  }

  /** How often the status of request r changes during the run. */
  function Changes(ops: seq<Op>, r: Id): nat {
    if ops == [] then 0
    else
      var before, after := Run(ops[..|ops| - 1]), Run(ops);
      Changes(ops[..|ops| - 1], r)
        + if r in before.requests && r in after.requests && before.requests[r].status != after.requests[r].status then 1 else 0
  }

  /** One call never removes a request or rewrites its terms, moves its status along an
      edge if at all, starts new requests as pending, and only appends to the ledger. */
  lemma StepLife(s: State, op: Op, r: Id)
    requires RequestsOk(s.requests, s.wallets, s.nextId)
    ensures s.ledger <= Step(s, op).ledger
    ensures r in s.requests ==>
      && r in Step(s, op).requests
      && var was, now := s.requests[r], Step(s, op).requests[r];
      && now.amount == was.amount && now.walletId == was.walletId && now.requestedBy == was.requestedBy
      && (now.status == was.status || Edge(was.status, now.status))
    ensures r !in s.requests && r in Step(s, op).requests ==> Step(s, op).requests[r].status == Pending
  {
    LedgerGrows(s, op);
    RequestLives(s, op, r);
  }

  lemma LedgerGrows(s: State, op: Op)
    ensures s.ledger <= Step(s, op).ledger
  {
  }

  /** What may become of request r. */
  predicate Lives(s: State, s': State, r: Id) {
    if r in s.requests then
      && r in s'.requests
      && var was, now := s.requests[r], s'.requests[r];
      && now.amount == was.amount && now.walletId == was.walletId && now.requestedBy == was.requestedBy
      && (now.status == was.status || Edge(was.status, now.status))
    else r in s'.requests ==> s'.requests[r].status == Pending
  }

  lemma RequestLives(s: State, op: Op, r: Id)
    requires RequestsOk(s.requests, s.wallets, s.nextId)
    ensures Lives(s, Step(s, op), r)
  {
    if op.EnsureWallet? || op.Credit? || op.Debit? || op.SetStatus? {
      assert Step(s, op).requests == s.requests;
    } else {
      HeldLives(s, op, r);
    }
  }

  lemma HeldLives(s: State, op: Op, r: Id)
    requires RequestsOk(s.requests, s.wallets, s.nextId) && !op.EnsureWallet? && !op.Credit? && !op.Debit? && !op.SetStatus?
    ensures Lives(s, Step(s, op), r)
  {
  }

  /** A request changes status at most three times on any run, always along the edges. */
  lemma {:induction false} AtMostThreeChanges(ops: seq<Op>, r: Id)
    ensures r in Run(ops).requests ==> Changes(ops, r) <= Rank(Run(ops).requests[r].status) <= 3
    ensures r !in Run(ops).requests ==> Changes(ops, r) == 0
  {
    if ops != [] {
      var before := ops[..|ops| - 1];
      AtMostThreeChanges(before, r);
      RunKeeps(before);
      StepLife(Run(before), ops[|ops| - 1], r);
    }
  }
}
