/**
 * The marketplace fee: a current fee in basis points plus at most one pending change that
 * activates lazily, on the first fee-dependent call at or after its start time
 * (lib.rs:229-285), and the split of a sale price between creator and treasury (lib.rs:458-466).
 */
module FeeSchedule {
  import opened Wrappers
  import opened Types

  /** `TransactionFee { next_fee, start_time, current_fee }` */
  datatype TransactionFee = TransactionFee(nextFee: Option<nat>, startTime: Option<nat>, currentFee: nat)

  /** Fees are below 10_000 and a pending fee always comes with its start time. */
  ghost predicate WellFormed(fee: TransactionFee) {
    && fee.currentFee < FEE_DENOMINATOR
    && (fee.nextFee.Some? <==> fee.startTime.Some?)
    && (fee.nextFee.Some? ==> fee.nextFee.value < FEE_DENOMINATOR)
  }

  /** `to_sec`: a block timestamp in nanoseconds to whole seconds, truncated by `as u32`. */
  function ToSec(timestamp: nat): (sec: nat)
    ensures sec <= U32_MAX
    ensures timestamp < (U32_MAX + 1) * NANOS_PER_SEC ==> sec * NANOS_PER_SEC <= timestamp < (sec + 1) * NANOS_PER_SEC
  {
    (timestamp / NANOS_PER_SEC) % (U32_MAX + 1)
  }

  /**
   * The fee-record half of `set_transaction_fee` (the owner and deposit checks are the
   * contract's): without a start time the fee changes now and any pending change is dropped;
   * with one, the change is scheduled, replacing any earlier pending change.
   */
  function SetFee(fee: TransactionFee, nextFee: nat, startTime: Option<nat>, nowSec: nat): (r: Result<TransactionFee, Error>)
    ensures r.Success? <==> nextFee < FEE_DENOMINATOR && (startTime.Some? ==> startTime.value > nowSec)
    ensures nextFee >= FEE_DENOMINATOR ==> r == Failure(FeeTooHigh)
    ensures r.Success? && startTime.None? ==> r.value.currentFee == nextFee && r.value.nextFee.None?
    ensures r.Success? && startTime.Some? ==>
      r.value.currentFee == fee.currentFee && r.value.nextFee == Some(nextFee) && r.value.startTime == startTime
    ensures WellFormed(fee) && r.Success? ==> WellFormed(r.value)
  {
    if nextFee >= FEE_DENOMINATOR then Failure(FeeTooHigh)
    else if startTime.None? then Success(TransactionFee(None, None, nextFee))
    else if startTime.value <= nowSec then Failure(StartTimeInPast)
    else Success(fee.(nextFee := Some(nextFee), startTime := startTime))
  }

  /** `calculate_current_transaction_fee`'s update: commit a pending fee whose start has come. */
  function ResolveFee(fee: TransactionFee, nowSec: nat): (r: TransactionFee)
    requires WellFormed(fee)
    ensures WellFormed(r)
    ensures r.nextFee.None? || r == fee
    ensures r.currentFee == fee.currentFee || (fee.nextFee == Some(r.currentFee) && nowSec >= fee.startTime.value)
  {
    if fee.nextFee.Some? && nowSec >= fee.startTime.value then TransactionFee(None, None, fee.nextFee.value)
    else fee
  }

  /** A pending change never takes effect before its start time ... */
  lemma PendingFeeWaits(fee: TransactionFee, nowSec: nat)
    requires WellFormed(fee) && fee.nextFee.Some? && nowSec < fee.startTime.value
    ensures ResolveFee(fee, nowSec) == fee
  {
  }

  /** ... and the first resolve at or after it commits the new fee and clears the pending pair. */
  lemma PendingFeeActivates(fee: TransactionFee, nowSec: nat)
    requires WellFormed(fee) && fee.nextFee.Some? && nowSec >= fee.startTime.value
    ensures ResolveFee(fee, nowSec) == TransactionFee(None, None, fee.nextFee.value)
  {
  }

  /** Resolving twice changes nothing the first resolve did not, at the same or any later time. */
  lemma ResolveFeeStable(fee: TransactionFee, t1: nat, t2: nat)
    requires WellFormed(fee) && t1 <= t2
    ensures ResolveFee(ResolveFee(fee, t1), t1) == ResolveFee(fee, t1)
    ensures ResolveFee(ResolveFee(fee, t1), t2) == ResolveFee(fee, t2)
  {
  }

  /** A fee set without a start time is final: no later resolve changes it. */
  lemma ImmediateFeeIsFinal(fee: TransactionFee, nextFee: nat, nowSec: nat, later: nat)
    requires SetFee(fee, nextFee, None, nowSec).Success?
    ensures ResolveFee(SetFee(fee, nextFee, None, nowSec).value, later).currentFee == nextFee
  {
  }

  /** A scheduled fee leaves the live fee alone until its start time, then replaces it. */
  lemma ScheduledFeeTiming(fee: TransactionFee, nextFee: nat, start: nat, nowSec: nat, later: nat)
    requires WellFormed(fee)
    requires SetFee(fee, nextFee, Some(start), nowSec).Success?
    ensures var scheduled := SetFee(fee, nextFee, Some(start), nowSec).value;
      ResolveFee(scheduled, later).currentFee == if later >= start then nextFee else fee.currentFee
  {
  }

  /**
   * The fee that applies to a series (`calculate_market_data_transaction_fee` and the view
   * `get_market_data_transaction_fee`): its snapshot, else the given live fee record's current fee.
   */
  function SeriesFee(snapshots: map<TokenSeriesId, nat>, fee: TransactionFee, seriesId: TokenSeriesId): (f: nat)
    ensures seriesId in snapshots ==> f == snapshots[seriesId]
    ensures seriesId !in snapshots ==> f == fee.currentFee
  {
    if seriesId in snapshots then snapshots[seriesId] else fee.currentFee
  }

  /** A snapshot outlives every later activation of the global fee. */
  lemma SnapshotSurvivesActivation(snapshots: map<TokenSeriesId, nat>, fee: TransactionFee, seriesId: TokenSeriesId, nowSec: nat)
    requires WellFormed(fee) && seriesId in snapshots
    ensures SeriesFee(snapshots, ResolveFee(fee, nowSec), seriesId) == SeriesFee(snapshots, fee, seriesId)
  {
  }

  /**
   * The view reads the fee record as stored: for a series without a snapshot it still reports
   * the old fee after a pending change has come due, until some call resolves it.
   */
  lemma StaleFeeView(snapshots: map<TokenSeriesId, nat>, fee: TransactionFee, seriesId: TokenSeriesId, nowSec: nat)
    requires WellFormed(fee) && seriesId !in snapshots
    requires fee.nextFee.Some? && nowSec >= fee.startTime.value && fee.nextFee.value != fee.currentFee
    ensures SeriesFee(snapshots, fee, seriesId) != SeriesFee(snapshots, ResolveFee(fee, nowSec), seriesId)
  {
  }

  /** The treasury's cut of a sale: `price * fee / 10_000`, rounded down. */
  function TreasuryShare(price: nat, feeBp: nat): (t: nat)
    ensures t * FEE_DENOMINATOR <= price * feeBp < (t + 1) * FEE_DENOMINATOR
    ensures feeBp <= FEE_DENOMINATOR ==> t <= price
  {
    var t := price * feeBp / FEE_DENOMINATOR;
    assert feeBp <= FEE_DENOMINATOR ==> price * feeBp <= price * FEE_DENOMINATOR;
    t
  }

  /** Below MAX_PRICE and 10_000 basis points, `price * fee` cannot overflow a u128. */
  lemma BuyProductFitsU128(price: nat, feeBp: nat)
    requires price < MAX_PRICE && feeBp < FEE_DENOMINATOR
    ensures price * feeBp < U128_LIMIT
  {
    assert price * feeBp <= price * FEE_DENOMINATOR;
    assert price * FEE_DENOMINATOR < MAX_PRICE * FEE_DENOMINATOR;
  }

  function TotalAmount(transfers: seq<Transfer>): nat {
    if transfers == [] then 0 else transfers[0].amount + TotalAmount(transfers[1..])
  }

  /**
   * The transfers `nft_buy` issues: the creator gets the price less the treasury's cut; the
   * treasury gets its cut only when that is not zero.
   */
  function SaleTransfers(creatorId: AccountId, treasuryId: AccountId, price: nat, feeBp: nat): (ts: seq<Transfer>)
    requires feeBp <= FEE_DENOMINATOR
    ensures TotalAmount(ts) == price
    ensures |ts| > 0 && ts[0].receiver == creatorId
    ensures |ts| == 2 <==> TreasuryShare(price, feeBp) != 0
    ensures |ts| == 2 ==> ts[1] == Transfer(treasuryId, TreasuryShare(price, feeBp))
  {
    var forTreasury := TreasuryShare(price, feeBp);
    var ts := [Transfer(creatorId, price - forTreasury)] + if forTreasury != 0 then [Transfer(treasuryId, forTreasury)] else [];
    assert ts[1..] == if forTreasury != 0 then [Transfer(treasuryId, forTreasury)] else [];
    assert TotalAmount(ts[1..]) == forTreasury by {
      if forTreasury != 0 { assert ts[1..][1..] == []; }
    }
    ts
  }

  /** The fee record `new` stores: `current_fee` is any u16, with no bound against 10_000. */
  function InitialFee(currentFee: nat): (fee: TransactionFee)
    requires currentFee <= U16_MAX
    ensures fee.nextFee.None? && fee.startTime.None? && fee.currentFee == currentFee
    ensures WellFormed(fee) <==> currentFee < FEE_DENOMINATOR
  {
    TransactionFee(None, None, currentFee)
  }

  /**
   * Deployed with a fee of 10_001 basis points, the treasury's cut of a 10_000 yocto sale is
   * 10_001, so `price - for_treasury` in `nft_buy` underflows and every sale aborts.
   */
  lemma UncheckedInitialFeeOverdrawsSale()
    ensures var fee := InitialFee(10_001);
      !WellFormed(fee) && TreasuryShare(10_000, fee.currentFee) > 10_000
  {
  }
}
