/**
 The monetary type: an unsigned 64-bit integer with a ceiling of 10^19. Arithmetic panics on operands
 above the ceiling and otherwise works modulo 2^64.
 */
module Amounts {

  const TWO64: nat := 0x1_0000_0000_0000_0000
  const AMOUNT_PER_COIN: nat := 10_000_000
  const MAXIMUM_BALANCE: nat := 1_000_000_000_000 * AMOUNT_PER_COIN

  type Amount = x: nat | x < TWO64

  datatype Error =
    | MaximumBalanceReached
    | AccountBalanceUnderZero
    | BlockAccountDoesNotExists
    | BlockAccountAlreadyExists
    | BlockAlreadyExists
    | UnknownOperationType
    | InvalidMessageVersion
    | TransactionInvalidSequenceID
    | TransactionExcessAbilityToPay
    | FrozenAccountNoDeposit
    | UnfreezingRequestNotRequested
    | UnfreezingNotReachedExpiration
    | UnfreezingFromInvalidAccount
    | UnfreezingRequestAlreadyReceived
    | InvalidOperation
    | InvalidFee
    | BlockOperationDoesNotExists
    | InflationPFAmountMissMatched
    | InflationPFFundingAddressMissMatched
    | CongressAddressMisMatched
    | InvalidProposerTransaction
    | BallotHeightMismatch
    | BallotBlockHashMismatch
    | TransactionAlreadyExistsInPool
    | TransactionPoolFull
    | TransactionNotFound
    | TransactionHasOverMaxOperations
    | BallotHasOverMaxTransactionsInBallot
    | BallotHasOverMaxOperationsInBallot
    | TransactionSameSourceInBallot
    | NewButKnownMessage
    | BadPublicAddress
    | DuplicatedOperation
    | StorageRecordAlreadyExists
    | StorageRecordDoesNotExist

  /** A Go call that may return an error or panic. */
  datatype Result<+T> = Ok(value: T) | Err(error: Error) | Panic {
    predicate IsFailure() { !Ok? }

    function PropagateFailure<U>(): Result<U>
      requires IsFailure()
    {
      match this
      case Err(e) => Err(e)
      case Panic => Panic
    }

    function Extract(): T
      requires !IsFailure()
    {
      value
    }
  }

  predicate Invariant(a: Amount) { a <= MAXIMUM_BALANCE }

  function Add(a: Amount, b: Amount): Result<Amount> {
    if !Invariant(a) || !Invariant(b) then Panic
    else
      var n := (a + b) % TWO64;
      if n > MAXIMUM_BALANCE then Err(MaximumBalanceReached) else Ok(n)
  }

  function MustAdd(a: Amount, b: Amount): Result<Amount> {
    if Add(a, b).Err? then Panic else Add(a, b)
  }

  function Sub(a: Amount, b: Amount): Result<Amount> {
    if !Invariant(a) || !Invariant(b) then Panic
    else if a < b then Err(AccountBalanceUnderZero)
    else Ok(a - b)
  }

  function MultUint64(a: Amount, n: Amount): Result<Amount> {
    if n == 0 then Ok(0)
    else if !Invariant(a) then Panic
    else if MAXIMUM_BALANCE / n < a then Err(MaximumBalanceReached)
    else Ok((a * n) % TWO64)
  }

  /** What the documentation promises of an addition: the exact sum, or an error past the ceiling. */
  predicate AddsExactly(a: Amount, b: Amount) {
    Add(a, b) == if a + b <= MAXIMUM_BALANCE then Ok(a + b) else Err(MaximumBalanceReached)
  }

  /** `Add` keeps its promise exactly while the integer sum fits in 64 bits. */
  lemma AddExactIff(a: Amount, b: Amount)
    requires Invariant(a) && Invariant(b)
    ensures AddsExactly(a, b) <==> a + b < TWO64
  {
    if a + b >= TWO64 {
      assert (a + b) % TWO64 == a + b - TWO64;
    }
  }

  /** Two full balances: past the ceiling, yet no error. */
  lemma AddWraps()
    ensures Add(MAXIMUM_BALANCE, MAXIMUM_BALANCE) == Ok(2 * MAXIMUM_BALANCE - TWO64)
    ensures !AddsExactly(MAXIMUM_BALANCE, MAXIMUM_BALANCE)
  {
  }

  lemma DivisionBound(n: nat, a: nat, max: nat)
    requires n > 0
    ensures max / n < a <==> a * n > max
  {
    var q := max / n;
    assert max == q * n + max % n;
    if q < a {
      assert (q + 1) * n <= a * n;
    } else {
      assert a * n <= q * n;
    }
  }

  /** Multiplication, unlike addition, never wraps: it is exact or it fails. */
  lemma MultIsExact(a: Amount, n: Amount)
    requires Invariant(a)
    ensures MultUint64(a, n) == if a * n <= MAXIMUM_BALANCE then Ok(a * n) else Err(MaximumBalanceReached)
  {
    if n > 0 {
      DivisionBound(n, a, MAXIMUM_BALANCE);
    }
  }

  /** Subtraction is exact or fails, and so is a sum that must succeed. */
  lemma SubIsExact(a: Amount, b: Amount)
    requires Invariant(a) && Invariant(b)
    ensures Sub(a, b) == if b <= a then Ok(a - b) else Err(AccountBalanceUnderZero)
    ensures a + b < TWO64 ==> MustAdd(a, b) == if a + b <= MAXIMUM_BALANCE then Ok(a + b) else Panic
    ensures MAXIMUM_BALANCE == 10_000_000_000_000_000_000
  {
  }
}
