/** The external miner: submitting a withdrawal with retries, and the saga that
    approves a wallet withdrawal, submits it and compensates when the miner fails.
    What the miner answers is a parameter: reply(coin, amount)(k) is its answer to the
    k-th call of that coin and amount. */
module Mining {
  import opened Wrappers
  import opened PointWallet
  import Retry

  datatype Submission = Submission(withdrawId: string, coin: string, amount: int)

  type Reply = (string, int) -> (nat -> Result<Submission, string>)

  datatype MiningRecord = MiningRecord(userId: string, withdrawId: Option<string>, coin: string, amount: int, submitted: bool)

  /** MinerFailed, CoinMissing and NotEligible are the execution errors; WalletFailed is an
      error of the wallet service passing through. */
  datatype ExecutionError = NotEligible | CoinMissing | MinerFailed(reason: string) | WalletFailed(error: WalletError)

  const COIN := "coin"

  /** A present, non-null and non-empty metadata value. */
  function Lookup(m: Metadata, key: string): Option<string> {
    if key in m && m[key].Text? && m[key].text != "" then Some(m[key].text) else None
  }

  function CoinSymbol(coin: Option<string>, m: Metadata): Option<string> {
    if coin.Some? && coin.value != "" then coin else Lookup(m, COIN)
  }

  /** Exactly one record is logged, whatever the number of attempts. */
  function SubmitSpec(log: seq<MiningRecord>, attempts: int, userId: string, coin: string, amount: int, reply: Reply)
    : (seq<MiningRecord>, Result<Submission, string>)
  {
    match Retry.Run(reply(coin, amount), attempts)
    case Returned(s, _) => (log + [MiningRecord(userId, Some(s.withdrawId), s.coin, s.amount, true)], Success(s))
    case Raised(e, _) => (log + [MiningRecord(userId, None, coin, amount, false)], Failure(e))
    case NoAttempts => (log + [MiningRecord(userId, None, coin, amount, false)], Failure("Retry exceeded attempts"))
  }

  function ExecuteSpec(s: State, log: seq<MiningRecord>, attempts: int, requestId: Id, approvedBy: string,
                       notes: Option<string>, coin: Option<string>, reply: Reply)
    : (State, seq<MiningRecord>, Result<Submission, ExecutionError>)
  {
    if requestId !in s.requests then (s, log, Failure(WalletFailed(WithdrawalNotFound)))
    else
      var pending := s.requests[requestId];
      if pending.status !in {Pending, ApprovedStage1, Approved} then (s, log, Failure(NotEligible))
      else if pending.walletId !in s.wallets then (s, log, Failure(WalletFailed(WalletNotFound)))
      else if CoinSymbol(coin, pending.metadata).None? then (s, log, Failure(CoinMissing))
      else
        var (s1, approved) := if pending.status == Approved then (s, Success(pending))
                              else ApproveSpec(s, requestId, approvedBy, notes);
        if approved.Failure? then (s1, log, Failure(WalletFailed(approved.error)))
        else
          var (log', submission) := SubmitSpec(log, attempts, s.wallets[pending.walletId].userId,
                                               CoinSymbol(coin, pending.metadata).value, pending.amount, reply);
          match submission
          case Success(value) => (s1, log', Success(value))
          case Failure(reason) =>
            var (s2, failed) := FailSpec(s1, requestId, approvedBy, Some(reason));
            (s2, log', Failure(if failed.Success? then MinerFailed(reason) else WalletFailed(failed.error)))
  }

  class MiningService {
    const attempts: int
    const initialDelay: real
    const backoffFactor: real
    var log: seq<MiningRecord>

    constructor (attempts: int, initialDelay: real, backoffFactor: real)
      ensures this.attempts == attempts && log == []
    {
      this.attempts, this.initialDelay, this.backoffFactor := attempts, initialDelay, backoffFactor;
      log := [];
    }

    method RequestWithdrawal(userId: string, coin: string, amount: int, reply: Reply) returns (r: Result<Submission, string>)
      modifies this
      ensures (log, r) == SubmitSpec(old(log), attempts, userId, coin, amount, reply)
    {
      var outcome, pauses := Retry.RetryCall(reply(coin, amount), attempts, initialDelay, backoffFactor);
      match outcome
      case Returned(s, _) =>
        log := log + [MiningRecord(userId, Some(s.withdrawId), s.coin, s.amount, true)];
        r := Success(s);
      case Raised(e, _) =>
        log := log + [MiningRecord(userId, None, coin, amount, false)];
        r := Failure(e);
      case NoAttempts =>
        log := log + [MiningRecord(userId, None, coin, amount, false)];
        r := Failure("Retry exceeded attempts");
    }
  }

  class MiningOrchestrator {
    const mining: MiningService
    const wallets: PointWalletService

    constructor (mining: MiningService, wallets: PointWalletService)
      ensures this.mining == mining && this.wallets == wallets
    {
      this.mining, this.wallets := mining, wallets;
    }

    method ApproveAndExecute(requestId: Id, approvedBy: string, notes: Option<string>, coin: Option<string>, reply: Reply)
      returns (r: Result<Submission, ExecutionError>)
      requires wallets.Valid()
      modifies mining, wallets
      ensures wallets.Valid()
      ensures (wallets.View(), mining.log, r)
           == ExecuteSpec(old(wallets.View()), old(mining.log), mining.attempts, requestId, approvedBy, notes, coin, reply)
    {
      if requestId !in wallets.requests {
        return Failure(WalletFailed(WithdrawalNotFound));
      }
      var pending := wallets.requests[requestId];
      if pending.status !in {Pending, ApprovedStage1, Approved} {
        return Failure(NotEligible);
      }
      if pending.walletId !in wallets.wallets {
        return Failure(WalletFailed(WalletNotFound));
      }
      var wallet := wallets.wallets[pending.walletId];
      var symbol := CoinSymbol(coin, pending.metadata);
      if symbol.None? {
        return Failure(CoinMissing);
      }
      if pending.status != Approved {
        var approved := wallets.ApproveWithdrawal(requestId, approvedBy, notes);
        if approved.Failure? {
          return Failure(WalletFailed(approved.error));
        }
      }
      var submission := mining.RequestWithdrawal(wallet.userId, symbol.value, pending.amount, reply);
      match submission
      case Success(value) =>
        r := Success(value);
      case Failure(reason) =>
        var failed := wallets.FailWithdrawal(requestId, approvedBy, Some(reason));
        r := Failure(if failed.Success? then MinerFailed(reason) else WalletFailed(failed.error));
    }
  }
}
