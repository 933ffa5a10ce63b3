/** Laws of the mining saga taken by itself: whichever way a call ends, money, request and
    mining log agree. */
module MiningLaws {
  import opened Wrappers
  import opened PointWallet
  import opened PointWalletLaws
  import opened Mining
  import Retry

  /** The coin to submit: the call's if it names one, else the text of the metadata's "coin". */
  function Symbol(coin: Option<string>, m: Metadata): Option<string> {
    if coin.Some? && coin.value != "" then coin
    else if "coin" in m && m["coin"].Text? && m["coin"].text != "" then Some(m["coin"].text)
    else None
  }

  /** The wallet pays request r out when asked to. */
  predicate Payable(s: State, r: Id) {
    && r in s.requests && s.requests[r].status in {Pending, ApprovedStage1} && s.requests[r].walletId in s.wallets
    && s.wallets[s.requests[r].walletId].status == Active
    && s.requests[r].amount <= s.wallets[s.requests[r].walletId].balance
  }

  /** The call reached the miner: the request is approved already or can be paid out, and a
      coin is known. */
  predicate ReachesMiner(s: State, requestId: Id, coin: Option<string>) {
    && requestId in s.requests && s.requests[requestId].walletId in s.wallets
    && Symbol(coin, s.requests[requestId].metadata).Some?
    && (s.requests[requestId].status == Approved || Payable(s, requestId))
  }

  /** Why a call that does not reach the miner raises. */
  function Refusal(s: State, requestId: Id, coin: Option<string>): ExecutionError {
    if requestId !in s.requests then WalletFailed(WithdrawalNotFound)
    else
      var q := s.requests[requestId];
      if q.status !in {Pending, ApprovedStage1, Approved} then NotEligible
      else if q.walletId !in s.wallets then WalletFailed(WalletNotFound)
      else if Symbol(coin, q.metadata).None? then CoinMissing
      else WalletFailed(if s.wallets[q.walletId].status != Active then WalletSuspended else InsufficientBalance)
  }

  function Balance(s: State, w: Id): int {
    if w in s.wallets then s.wallets[w].balance else 0
  }

  /** What a call that reached the miner leaves behind when the miner accepted, or did not. */
  ghost predicate Executed(s: State, s': State, requestId: Id, accepted: bool) {
    && requestId in s.requests && requestId in s'.requests
    && var was, now := s.requests[requestId], s'.requests[requestId];
    && s'.requests == s.requests[requestId := now]
    && now.status == (if accepted then Approved else Failed)
    && Balance(s', was.walletId) == Balance(s, was.walletId)
         + (if accepted && was.status != Approved then -was.amount
            else if !accepted && was.status == Approved then was.amount else 0)
    && forall w :: w in s.wallets && w != was.walletId ==> w in s'.wallets && s'.wallets[w] == s.wallets[w]
  }

  /** One record more: the miner was asked for the amount in that coin, and the record is a
      submitted one, with what the first accepted attempt answered, exactly when some allowed
      attempt is accepted, and otherwise a failed one with what was asked for. */
  ghost predicate Recorded(log: seq<MiningRecord>, log': seq<MiningRecord>, userId: string, coin: string, amount: int, attempts: int, reply: Reply) {
    && |log'| == |log| + 1 && log'[..|log|] == log
    && var m := log'[|log|];
    && m.userId == userId
    && (m.submitted <==> exists k :: 1 <= k <= attempts && reply(coin, amount)(k).Success?)
    && (m.submitted ==> exists k :: 1 <= k <= attempts && FirstAccepted(reply(coin, amount), k)
                          && m == MiningRecord(userId, Some(reply(coin, amount)(k).value.withdrawId), reply(coin, amount)(k).value.coin,
                                               reply(coin, amount)(k).value.amount, true))
    && (!m.submitted ==> m == MiningRecord(userId, None, coin, amount, false))
  }

  ghost predicate FirstAccepted(answers: nat -> Result<Submission, string>, k: nat) {
    answers(k).Success? && forall j :: 1 <= j < k ==> answers(j).Failure?
  }

  lemma SubmitLogs(log: seq<MiningRecord>, attempts: int, userId: string, coin: string, amount: int, reply: Reply)
    ensures var (log', r) := SubmitSpec(log, attempts, userId, coin, amount, reply);
      && Recorded(log, log', userId, coin, amount, attempts, reply)
      && var m := log'[|log|];
      && (m.submitted <==> r.Success?)
      && (r.Success? ==> m.withdrawId == Some(r.value.withdrawId) && m.coin == r.value.coin && m.amount == r.value.amount)
  {
    Retry.RunMeaning(reply(coin, amount), attempts);
    var outcome := Retry.Run(reply(coin, amount), attempts);
    if outcome.Returned? {
      assert FirstAccepted(reply(coin, amount), outcome.tries);
    }
  }

  /** What a call that reached the miner does. */
  ghost predicate Saga(s: State, log: seq<MiningRecord>, s': State, log': seq<MiningRecord>, r: Result<Submission, ExecutionError>,
                       attempts: int, requestId: Id, coin: string, reply: Reply)
  {
    && requestId in s.requests && s.requests[requestId].walletId in s.wallets
    && var q := s.requests[requestId];
    && Recorded(log, log', s.wallets[q.walletId].userId, coin, q.amount, attempts, reply)
    && log'[|log|].submitted == r.Success?
    && (r.Success? ==> log'[|log|].withdrawId == Some(r.value.withdrawId))
    && (r.Failure? ==> r.error.MinerFailed?)
    && Executed(s, s', requestId, r.Success?)
  }

  lemma SagaRefused(s: State, log: seq<MiningRecord>, attempts: int, requestId: Id, approvedBy: string,
                    notes: Option<string>, coin: Option<string>, reply: Reply)
    requires Structure(s) && !ReachesMiner(s, requestId, coin)
    ensures ExecuteSpec(s, log, attempts, requestId, approvedBy, notes, coin, reply) == (s, log, Failure(Refusal(s, requestId, coin)))
  {
  }

  /** The wallet between approval and submission: paid out, unless it was before. */
  lemma SagaApproved(s: State, requestId: Id, approvedBy: string, notes: Option<string>) returns (s1: State)
    requires Structure(s) && requestId in s.requests && s.requests[requestId].walletId in s.wallets
    requires s.requests[requestId].status == Approved || Payable(s, requestId)
    ensures s1 == if s.requests[requestId].status == Approved then s else ApproveSpec(s, requestId, approvedBy, notes).0
    ensures s.requests[requestId].status == Approved || ApproveSpec(s, requestId, approvedBy, notes).1.Success?
    ensures Structure(s1) && Executed(s, s1, requestId, true) && s1.requests[requestId].amount == s.requests[requestId].amount
    ensures s1.requests[requestId].walletId == s.requests[requestId].walletId
  {
    s1 := if s.requests[requestId].status == Approved then s else ApproveSpec(s, requestId, approvedBy, notes).0;
  }

  lemma SagaFailed(s: State, s1: State, requestId: Id, approvedBy: string, reason: string)
    requires Structure(s1) && Executed(s, s1, requestId, true) && s1.requests[requestId].amount == s.requests[requestId].amount
    requires s.requests[requestId].walletId in s.wallets && s1.requests[requestId].walletId == s.requests[requestId].walletId
    ensures FailSpec(s1, requestId, approvedBy, Some(reason)).1.Success?
    ensures Executed(s, FailSpec(s1, requestId, approvedBy, Some(reason)).0, requestId, false)
  {
  }

  lemma SagaReached(s: State, log: seq<MiningRecord>, attempts: int, requestId: Id, approvedBy: string,
                    notes: Option<string>, coin: Option<string>, reply: Reply)
    requires Structure(s) && ReachesMiner(s, requestId, coin)
    ensures var (s', log', r) := ExecuteSpec(s, log, attempts, requestId, approvedBy, notes, coin, reply);
      Saga(s, log, s', log', r, attempts, requestId, Symbol(coin, s.requests[requestId].metadata).value, reply)
  {
    var q := s.requests[requestId];
    var symbol := Symbol(coin, q.metadata).value;
    assert CoinSymbol(coin, q.metadata) == Some(symbol);
    SubmitLogs(log, attempts, s.wallets[q.walletId].userId, symbol, q.amount, reply);
    var s1 := SagaApproved(s, requestId, approvedBy, notes);
    var submission := SubmitSpec(log, attempts, s.wallets[q.walletId].userId, symbol, q.amount, reply).1;
    if submission.Failure? {
      SagaFailed(s, s1, requestId, approvedBy, submission.error);
    }
  }

  /** The saga: a call that does not reach the miner changes nothing.  Otherwise it asks the
      miner for the request's amount in that coin and logs one record; when some allowed
      attempt is accepted the amount is deducted once, counting an earlier approval, and the
      request approved, and when none is the amount is back with the wallet as if it had never
      been approved, and the request failed. */
  lemma SagaExact(s: State, log: seq<MiningRecord>, attempts: int, requestId: Id, approvedBy: string,
                  notes: Option<string>, coin: Option<string>, reply: Reply)
    requires Structure(s)
    ensures var (s', log', r) := ExecuteSpec(s, log, attempts, requestId, approvedBy, notes, coin, reply);
      if ReachesMiner(s, requestId, coin)
      then Saga(s, log, s', log', r, attempts, requestId, Symbol(coin, s.requests[requestId].metadata).value, reply)
      else s' == s && log' == log && r == Failure(Refusal(s, requestId, coin))
  {
    if ReachesMiner(s, requestId, coin) {
      SagaReached(s, log, attempts, requestId, approvedBy, notes, coin, reply);
    } else {
      SagaRefused(s, log, attempts, requestId, approvedBy, notes, coin, reply);
    }
  }
}
