/**
 * Royalty tables: the summing loop that validates one at series creation (lib.rs:349-372)
 * and the payout loop shared by `nft_payout` and `nft_transfer_payout` (lib.rs:1159-1183,
 * 1221-1240), with `royalty_to_payout` (lib.rs:1268-1270).
 */
module Royalty {
  import opened Wrappers
  import opened Types

  ghost function PickKey<K>(m: map<K, nat>): K
    requires m != map[]
  {
    var k :| k in m; k
  }

  /** The sum of the values of a map, in no particular order. */
  ghost function SumValues<K>(m: map<K, nat>): nat
    decreases |m|
  {
    if m == map[] then 0
    else
      var k := PickKey(m);
      m[k] + SumValues(m - {k})
  }

  /** Any key can be taken out first: the sum does not depend on the iteration order. */
  lemma {:induction false} SumValuesRemove<K>(m: map<K, nat>, k: K)
    requires k in m
    ensures SumValues(m) == m[k] + SumValues(m - {k})
    decreases |m|
  {
    var j := PickKey(m);
    if j != k {
      var mj, mk := m - {j}, m - {k};
      SumValuesRemove(mj, k);
      SumValuesRemove(mk, j);
      assert mj - {k} == mk - {j};
    }
  }

  /** The entries of `m` whose keys are in `keys`. */
  function Restrict<K>(m: map<K, nat>, keys: set<K>): (r: map<K, nat>)
    ensures r.Keys == m.Keys * keys
  {
    map k | k in m && k in keys :: m[k]
  }

  /** One loop step: taking key `k` out of the keys still to visit. */
  lemma SumStep<K>(m: map<K, nat>, remaining: set<K>, k: K)
    requires k in remaining
    ensures SumValues(Restrict(m, remaining)) == (if k in m then m[k] else 0) + SumValues(Restrict(m, remaining - {k}))
  {
    if k in m {
      SumValuesRemove(Restrict(m, remaining), k);
      assert Restrict(m, remaining) - {k} == Restrict(m, remaining - {k});
    } else {
      assert Restrict(m, remaining) == Restrict(m, remaining - {k});
    }
  }

  /** What the creation loop accepts: every key a valid account id, and a sum that fits a u32. */
  ghost predicate RoyaltyAccepted(royalty: map<AccountId, nat>, validAccountId: AccountId -> bool) {
    && (forall k | k in royalty :: validAccountId(k))
    && SumValues(royalty) <= U32_MAX
  }

  /**
   * The creation loop: visit the entries in map order, panic on an invalid account id, add
   * each share to a u32 total (a checked add, so a total past u32::MAX panics). Which of two
   * possible panics comes first depends on the order, so the contract pins the error only
   * where one of them cannot happen.
   */
  method SumRoyalty(royalty: map<AccountId, nat>, validAccountId: AccountId -> bool) returns (r: Result<nat, Error>)
    ensures r.Success? <==> RoyaltyAccepted(royalty, validAccountId)
    ensures r.Success? ==> r.value == SumValues(royalty)
    ensures r.Failure? ==> r.error == InvalidRoyaltyAccount || r.error == ArithmeticOverflow
    ensures r.Failure? && (forall k | k in royalty :: validAccountId(k)) ==> r.error == ArithmeticOverflow
    ensures r.Failure? && SumValues(royalty) <= U32_MAX ==> r.error == InvalidRoyaltyAccount
  {
    var remaining := royalty.Keys;
    var total := 0;
    assert Restrict(royalty, remaining) == royalty;
    while remaining != {}
      invariant remaining <= royalty.Keys
      invariant total + SumValues(Restrict(royalty, remaining)) == SumValues(royalty)
      invariant total <= U32_MAX
      invariant forall k | k in royalty && k !in remaining :: validAccountId(k)
      decreases remaining
    {
      var k :| k in remaining;
      SumStep(royalty, remaining, k);
      if !validAccountId(k) {
        return Failure(InvalidRoyaltyAccount);
      }
      if total + royalty[k] > U32_MAX {
        return Failure(ArithmeticOverflow);
      }
      total := total + royalty[k];
      remaining := remaining - {k};
    }
    assert Restrict(royalty, remaining) == map[];
    return Success(total);
  }

  /** `royalty_to_payout`: `bp * balance / 10_000` in u128, rounded down. */
  function RoyaltyToPayout(bp: nat, balance: nat): (amount: nat)
    ensures amount * FEE_DENOMINATOR <= bp * balance < (amount + 1) * FEE_DENOMINATOR
  {
    bp * balance / FEE_DENOMINATOR
  }

  /** The shares of every royalty holder other than the owner. */
  function Shares(royalty: map<AccountId, nat>, ownerId: AccountId): map<AccountId, nat> {
    map k | k in royalty && k != ownerId :: royalty[k]
  }

  /** Each amount of `bps` converted to its payout out of `balance`. */
  function Scaled(bps: map<AccountId, nat>, balance: nat): (r: map<AccountId, nat>)
    ensures r.Keys == bps.Keys
  {
    map k | k in bps :: RoyaltyToPayout(bps[k], balance)
  }

  /** Every `bp * balance` product the loop computes fits a u128 (the multiply is checked). */
  ghost predicate SharesFit(royalty: map<AccountId, nat>, ownerId: AccountId, balance: nat) {
    forall k | k in royalty && k != ownerId :: royalty[k] * balance < U128_LIMIT
  }

  datatype RoyaltyShares = RoyaltyShares(payout: map<AccountId, nat>, totalPerpetual: nat)

  /** The payout map after the loop has visited the keys in `visited`. */
  function PaidSoFar(royalty: map<AccountId, nat>, ownerId: AccountId, balance: nat, visited: set<AccountId>): map<AccountId, nat> {
    map j | j in royalty && j in visited && j != ownerId :: RoyaltyToPayout(royalty[j], balance)
  }

  lemma PaidSoFarStep(royalty: map<AccountId, nat>, ownerId: AccountId, balance: nat, visited: set<AccountId>, k: AccountId)
    requires k in royalty
    ensures PaidSoFar(royalty, ownerId, balance, visited + {k})
      == if k == ownerId then PaidSoFar(royalty, ownerId, balance, visited)
         else PaidSoFar(royalty, ownerId, balance, visited)[k := RoyaltyToPayout(royalty[k], balance)]
  {
  }

  /**
   * The payout loop: every holder but the owner gets `royalty_to_payout(bp, balance)` and its
   * share is added to a u32 total. Both arithmetic steps are checked.
   */
  method PayRoyaltyHolders(royalty: map<AccountId, nat>, ownerId: AccountId, balance: nat)
    returns (r: Result<RoyaltyShares, Error>)
    ensures r.Success? <==> SharesFit(royalty, ownerId, balance) && SumValues(Shares(royalty, ownerId)) <= U32_MAX
    ensures r.Success? ==> r.value.payout == Scaled(Shares(royalty, ownerId), balance)
    ensures r.Success? ==> r.value.totalPerpetual == SumValues(Shares(royalty, ownerId))
    ensures r.Failure? ==> r.error == ArithmeticOverflow
  {
    ghost var others := Shares(royalty, ownerId);
    var remaining := royalty.Keys;
    var payout := map[];
    var total := 0;
    assert Restrict(others, remaining) == others;
    assert PaidSoFar(royalty, ownerId, balance, royalty.Keys - remaining) == map[];
    while remaining != {}
      invariant remaining <= royalty.Keys
      invariant total + SumValues(Restrict(others, remaining)) == SumValues(others)
      invariant total <= U32_MAX
      invariant payout == PaidSoFar(royalty, ownerId, balance, royalty.Keys - remaining)
      invariant forall j | j in royalty && j !in remaining && j != ownerId :: royalty[j] * balance < U128_LIMIT
      decreases remaining
    {
      var k :| k in remaining;
      SumStep(others, remaining, k);
      PaidSoFarStep(royalty, ownerId, balance, royalty.Keys - remaining, k);
      assert royalty.Keys - (remaining - {k}) == (royalty.Keys - remaining) + {k};
      if k != ownerId {
        if royalty[k] * balance >= U128_LIMIT {
          return Failure(ArithmeticOverflow);
        }
        payout := payout[k := RoyaltyToPayout(royalty[k], balance)];
        if total + royalty[k] > U32_MAX {
          return Failure(ArithmeticOverflow);
        }
        total := total + royalty[k];
      }
      remaining := remaining - {k};
    }
    assert Restrict(others, remaining) == map[];
    assert payout == Scaled(others, balance);
    return Success(RoyaltyShares(payout, total));
  }

  /**
   * The complete payout: the holders' shares, and the owner's `royalty_to_payout(10_000 - total)`
   * (the owner's own royalty entry, if any, is skipped and replaced by this).
   */
  ghost function PayoutSpec(royalty: map<AccountId, nat>, ownerId: AccountId, balance: nat): map<AccountId, nat>
    requires SumValues(Shares(royalty, ownerId)) <= FEE_DENOMINATOR
  {
    Scaled(Shares(royalty, ownerId), balance)[ownerId := RoyaltyToPayout(FEE_DENOMINATOR - SumValues(Shares(royalty, ownerId)), balance)]
  }

  /** Every checked step of a payout succeeds: the holders' products, the u32 total, `10_000 - total`, and the owner's product. */
  ghost predicate PayoutFits(royalty: map<AccountId, nat>, ownerId: AccountId, balance: nat) {
    && SharesFit(royalty, ownerId, balance)
    && SumValues(Shares(royalty, ownerId)) <= FEE_DENOMINATOR
    && (FEE_DENOMINATOR - SumValues(Shares(royalty, ownerId))) * balance < U128_LIMIT
  }

  /** Leaving the owner out never raises the total share. */
  lemma SharesWithinRoyalty(royalty: map<AccountId, nat>, ownerId: AccountId)
    ensures SumValues(Shares(royalty, ownerId)) <= SumValues(royalty)
  {
    if ownerId in royalty {
      SumValuesRemove(royalty, ownerId);
      assert Shares(royalty, ownerId) == royalty - {ownerId};
    } else {
      assert Shares(royalty, ownerId) == royalty;
    }
  }

  /** Two bounds `a * D <= c * x` and `b * D <= d * x` add up. */
  lemma AddBounds(a: nat, b: nat, c: nat, d: nat, x: nat)
    requires a * FEE_DENOMINATOR <= c * x && b * FEE_DENOMINATOR <= d * x
    ensures (a + b) * FEE_DENOMINATOR <= (c + d) * x
  {
    assert (a + b) * FEE_DENOMINATOR == a * FEE_DENOMINATOR + b * FEE_DENOMINATOR;
    assert (c + d) * x == c * x + d * x;
  }

  /** Rounding each share down never pays out more than the shares' exact total. */
  lemma {:induction false} ScaledSumBound(bps: map<AccountId, nat>, balance: nat)
    ensures SumValues(Scaled(bps, balance)) * FEE_DENOMINATOR <= SumValues(bps) * balance
    decreases |bps|
  {
    var s := Scaled(bps, balance);
    if bps == map[] {
      assert s == map[];
    } else {
      var k := PickKey(bps);
      SumValuesRemove(s, k);
      SumValuesRemove(bps, k);
      assert s - {k} == Scaled(bps - {k}, balance);
      ScaledSumBound(bps - {k}, balance);
      assert s[k] == RoyaltyToPayout(bps[k], balance);
      AddBounds(s[k], SumValues(s - {k}), bps[k], SumValues(bps - {k}), balance);
    }
  }

  /** Amounts whose scaled sum is at most `D * x` add up to at most `x`. */
  lemma SplitBound(holders: nat, owner: nat, bpTotal: nat, x: nat)
    requires bpTotal <= FEE_DENOMINATOR
    requires holders * FEE_DENOMINATOR <= bpTotal * x
    requires owner * FEE_DENOMINATOR <= (FEE_DENOMINATOR - bpTotal) * x
    ensures holders + owner <= x
  {
    AddBounds(holders, owner, bpTotal, FEE_DENOMINATOR - bpTotal, x);
  }

  /** Payouts never exceed the balance: the owner absorbs every rounding loss. */
  lemma PayoutBounded(royalty: map<AccountId, nat>, ownerId: AccountId, balance: nat)
    requires SumValues(Shares(royalty, ownerId)) <= FEE_DENOMINATOR
    ensures SumValues(PayoutSpec(royalty, ownerId, balance)) <= balance
  {
    var holders := Scaled(Shares(royalty, ownerId), balance);
    var p := PayoutSpec(royalty, ownerId, balance);
    var bpTotal := SumValues(Shares(royalty, ownerId));
    SumValuesRemove(p, ownerId);
    assert p - {ownerId} == holders;
    ScaledSumBound(Shares(royalty, ownerId), balance);
    SplitBound(SumValues(holders), p[ownerId], bpTotal, balance);
  }

  /**
   * The payout `nft_payout` returns once the owner is known (lib.rs:1158-1184): at most
   * `maxLenPayout` royalty accounts, then the holders' shares and the owner's rest, where
   * `10_000 - total` is a checked u32 subtraction.
   */
  method NftPayoutOf(royalty: map<AccountId, nat>, ownerId: AccountId, balance: nat, maxLenPayout: nat)
    returns (r: Result<map<AccountId, nat>, Error>)
    ensures |royalty| > maxLenPayout ==> r == Failure(TooManyPayoutReceivers)
    ensures r.Success? <==> |royalty| <= maxLenPayout && PayoutFits(royalty, ownerId, balance)
    ensures |royalty| <= maxLenPayout && r.Failure? ==> r.error == ArithmeticOverflow
    ensures r.Success? ==> r.value == PayoutSpec(royalty, ownerId, balance) && SumValues(r.value) <= balance
  {
    if |royalty| > maxLenPayout {
      return Failure(TooManyPayoutReceivers);
    }
    var shares := PayRoyaltyHolders(royalty, ownerId, balance);
    if shares.Failure? {
      return Failure(shares.error);
    }
    var totalPerpetual := shares.value.totalPerpetual;
    if totalPerpetual > FEE_DENOMINATOR {
      return Failure(ArithmeticOverflow);
    }
    if (FEE_DENOMINATOR - totalPerpetual) * balance >= U128_LIMIT {
      return Failure(ArithmeticOverflow);
    }
    PayoutBounded(royalty, ownerId, balance);
    return Success(shares.value.payout[ownerId := RoyaltyToPayout(FEE_DENOMINATOR - totalPerpetual, balance)]);
  }

  /**
   * The payout half of `nft_transfer_payout` for a given balance (lib.rs:1206-1240): the same
   * computation, but `max_len_payout` must be given and a total above 10_000 basis points
   * trips the explicit "Total payout overflow" assertion.
   */
  method TransferPayoutOf(royalty: map<AccountId, nat>, ownerId: AccountId, balance: nat, maxLenPayout: Option<nat>)
    returns (r: Result<map<AccountId, nat>, Error>)
    ensures maxLenPayout.None? ==> r == Failure(MaxLenPayoutRequired)
    ensures maxLenPayout.Some? && |royalty| > maxLenPayout.value ==> r == Failure(TooManyPayoutReceivers)
    ensures r.Success? <==> maxLenPayout.Some? && |royalty| <= maxLenPayout.value && PayoutFits(royalty, ownerId, balance)
    ensures (r.Failure? && maxLenPayout.Some? && |royalty| <= maxLenPayout.value) ==>
      r.error == ArithmeticOverflow || r.error == PayoutOverflow
    ensures r == Failure(PayoutOverflow) ==> SumValues(royalty) > FEE_DENOMINATOR
    ensures r.Success? ==> r.value == PayoutSpec(royalty, ownerId, balance) && SumValues(r.value) <= balance
  {
    if maxLenPayout.None? {
      return Failure(MaxLenPayoutRequired);
    }
    if |royalty| > maxLenPayout.value {
      return Failure(TooManyPayoutReceivers);
    }
    var shares := PayRoyaltyHolders(royalty, ownerId, balance);
    if shares.Failure? {
      return Failure(shares.error);
    }
    var totalPerpetual := shares.value.totalPerpetual;
    if totalPerpetual > FEE_DENOMINATOR {
      SharesWithinRoyalty(royalty, ownerId);
      return Failure(PayoutOverflow);
    }
    if (FEE_DENOMINATOR - totalPerpetual) * balance >= U128_LIMIT {
      return Failure(ArithmeticOverflow);
    }
    PayoutBounded(royalty, ownerId, balance);
    return Success(shares.value.payout[ownerId := RoyaltyToPayout(FEE_DENOMINATOR - totalPerpetual, balance)]);
  }

  /**
   * The sum can fall short of the balance: one basis point of one yoctoNEAR rounds to nothing
   * for the holder and 9_999 basis points round to nothing for the owner.
   */
  lemma PayoutMayLoseRounding()
    ensures var royalty := map["alice" := 1];
      SumValues(Shares(royalty, "bob")) <= FEE_DENOMINATOR
      && PayoutSpec(royalty, "bob", 1) == map["alice" := 0, "bob" := 0]
  {
    var royalty := map["alice" := 1];
    var holders := Shares(royalty, "bob");
    assert holders == royalty;
    SumValuesRemove(holders, "alice");
    assert holders - {"alice"} == map[];
  }

  /** The payout of the transfer-payout test: {A: 1000 bp}, owner B, balance 10^24. */
  lemma PayoutExample()
    ensures var royalty := map["alice" := 1000];
      SumValues(Shares(royalty, "bob")) <= FEE_DENOMINATOR
      && PayoutSpec(royalty, "bob", 1_000_000_000_000_000_000_000_000)
         == map["alice" := 100_000_000_000_000_000_000_000, "bob" := 900_000_000_000_000_000_000_000]
  {
    var royalty := map["alice" := 1000];
    var holders := Shares(royalty, "bob");
    assert holders == royalty;
    SumValuesRemove(holders, "alice");
    assert holders - {"alice"} == map[];
  }
}
