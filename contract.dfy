/**
 * The marketplace contract of nearlend-nft-contract/src/lib.rs: a NEP-171 token registry for
 * lazily minted series, a creator-run series store, sales with a treasury fee, and royalty
 * payouts. The environment (caller, attached deposit, block timestamp) arrives as parameters;
 * every panic of the source is a `Failure` that leaves the state as it was.
 */
module Marketplace {
  import opened Wrappers
  import opened Types
  import opened TokenIds
  import opened FeeSchedule
  import opened Royalty
  import opened SeriesStore
  import opened Registry
  import Projection

  /** What `nft_create_series` accepts (lib.rs:328-383), in the order it checks. */
  ghost predicate SeriesAccepted(
    caller: AccountId, creatorId: Option<AccountId>, metadata: TokenMetadata,
    price: Option<nat>, royalty: map<AccountId, nat>, validAccountId: AccountId -> bool)
  {
    && (creatorId.Some? ==> creatorId.value == caller)
    && metadata.title.Some?
    && RoyaltyAccepted(royalty, validAccountId)
    && |royalty| <= MAX_ROYALTY_ACCOUNTS
    && SumValues(royalty) <= MAX_ROYALTY_TOTAL
    && (price.Some? ==> price.value < MAX_PRICE)
  }

  /** `approvals_by_id.get(token).unwrap_or_else(HashMap::new)` */
  function ApprovalsOf(approvalsById: map<TokenId, map<AccountId, nat>>, tokenId: TokenId): (approvals: map<AccountId, nat>)
    ensures tokenId in approvalsById ==> approvals == approvalsById[tokenId]
    ensures tokenId !in approvalsById ==> approvals == map[]
  {
    if tokenId in approvalsById then approvalsById[tokenId] else map[]
  }

  /** `next_approval_id_by_id.get(token).unwrap_or_else(|| 1)` */
  function NextApprovalId(nextApprovalIdById: map<TokenId, nat>, tokenId: TokenId): (id: nat)
    ensures tokenId in nextApprovalIdById ==> id == nextApprovalIdById[tokenId]
    ensures tokenId !in nextApprovalIdById ==> id == 1
  {
    if tokenId in nextApprovalIdById then nextApprovalIdById[tokenId] else 1
  }

  /**
   * The series store and token registry go from the first four maps to the last four by a mint
   * of the next edition of `seriesId` to `receiverId`, and by nothing else.
   */
  ghost predicate Minted(
    series: map<TokenSeriesId, TokenSeries>, ownerById: map<TokenId, AccountId>,
    tokenMetadataById: map<TokenId, TokenMetadata>, tokensPerOwner: map<AccountId, set<TokenId>>,
    series': map<TokenSeriesId, TokenSeries>, ownerById': map<TokenId, AccountId>,
    tokenMetadataById': map<TokenId, TokenMetadata>, tokensPerOwner': map<AccountId, set<TokenId>>,
    seriesId: TokenSeriesId, receiverId: AccountId, blockTimestamp: nat, tokenId: TokenId)
  {
    && seriesId in series
    && MintStep(seriesId, series[seriesId]).Success?
    && tokenId == MakeTokenId(seriesId, |series[seriesId].tokens| + 1)
    && tokenId !in ownerById
    && series' == series[seriesId := MintStep(seriesId, series[seriesId]).value]
    && ownerById' == ownerById[tokenId := receiverId]
    && tokenMetadataById' == tokenMetadataById[tokenId := Projection.MintedTokenMetadata(blockTimestamp)]
    && tokensPerOwner' == tokensPerOwner[receiverId := TokensOf(tokensPerOwner, receiverId) + {tokenId}]
  }

  /**
   * The argument checks of `nft_create_series` (lib.rs:328-383), in the order the source makes
   * them; on success, the royalty table to store (empty when none is given).
   */
  method CheckSeries(
    caller: AccountId, creatorId: Option<AccountId>, tokenMetadata: TokenMetadata,
    price: Option<nat>, royalty: Option<map<AccountId, nat>>, validAccountId: AccountId -> bool)
    returns (r: Result<map<AccountId, nat>, Error>)
    ensures creatorId.Some? && creatorId.value != caller ==> r == Failure(CallerNotCreatorId)
    ensures (creatorId.Some? ==> creatorId.value == caller) && tokenMetadata.title.None? ==> r == Failure(TitleRequired)
    ensures ((creatorId.Some? ==> creatorId.value == caller) && tokenMetadata.title.Some?
             && !RoyaltyAccepted(royalty.GetOr(map[]), validAccountId))
      ==> r == Failure(InvalidRoyaltyAccount) || r == Failure(ArithmeticOverflow)
    ensures ((creatorId.Some? ==> creatorId.value == caller) && tokenMetadata.title.Some?
             && RoyaltyAccepted(royalty.GetOr(map[]), validAccountId) && |royalty.GetOr(map[])| > MAX_ROYALTY_ACCOUNTS)
      ==> r == Failure(TooManyRoyaltyAccounts)
    ensures ((creatorId.Some? ==> creatorId.value == caller) && tokenMetadata.title.Some?
             && RoyaltyAccepted(royalty.GetOr(map[]), validAccountId) && |royalty.GetOr(map[])| <= MAX_ROYALTY_ACCOUNTS
             && SumValues(royalty.GetOr(map[])) > MAX_ROYALTY_TOTAL)
      ==> r == Failure(RoyaltyTooHigh)
    ensures r.Success? <==> SeriesAccepted(caller, creatorId, tokenMetadata, price, royalty.GetOr(map[]), validAccountId)
    ensures ((creatorId.Some? ==> creatorId.value == caller) && tokenMetadata.title.Some?
             && RoyaltyAccepted(royalty.GetOr(map[]), validAccountId) && |royalty.GetOr(map[])| <= MAX_ROYALTY_ACCOUNTS
             && SumValues(royalty.GetOr(map[])) <= MAX_ROYALTY_TOTAL && price.Some? && price.value >= MAX_PRICE)
      ==> r == Failure(PriceTooHigh)
    ensures r.Success? ==> r.value == royalty.GetOr(map[])
  {
    if creatorId.Some? && creatorId.value != caller {
      return Failure(CallerNotCreatorId);
    }
    if tokenMetadata.title.None? {
      return Failure(TitleRequired);
    }
    var table := royalty.GetOr(map[]);
    var totalPerpetual := 0;
    if royalty.Some? {
      var total := SumRoyalty(table, validAccountId);
      if total.Failure? {
        return Failure(total.error);
      }
      totalPerpetual := total.value;
    }
    assert totalPerpetual == SumValues(table);
    if |table| > MAX_ROYALTY_ACCOUNTS {
      return Failure(TooManyRoyaltyAccounts);
    }
    if totalPerpetual > MAX_ROYALTY_TOTAL {
      return Failure(RoyaltyTooHigh);
    }
    if price.Some? && price.value >= MAX_PRICE {
      return Failure(PriceTooHigh);
    }
    return Success(table);
  }

  class Contract {
    const ownerId: AccountId
    const treasuryId: AccountId
    var transactionFee: TransactionFee
    /** The fee each series was last priced under; it takes precedence over the global fee. */
    var marketDataTransactionFee: map<TokenSeriesId, nat>
    var tokenSeriesById: map<TokenSeriesId, TokenSeries>
    var ownerById: map<TokenId, AccountId>
    var tokenMetadataById: map<TokenId, TokenMetadata>
    var tokensPerOwner: map<AccountId, set<TokenId>>
    var approvalsById: map<TokenId, map<AccountId, nat>>
    var nextApprovalIdById: map<TokenId, nat>

    /** The invariant every entry point keeps. */
    ghost predicate Valid()
      reads this
    {
      && WellFormed(transactionFee)
      && (forall id | id in marketDataTransactionFee :: marketDataTransactionFee[id] < FEE_DENOMINATOR)
      && StoreValid(tokenSeriesById)
      && RegistryValid(tokenSeriesById, ownerById, tokenMetadataById, tokensPerOwner, approvalsById, nextApprovalIdById)
    }

    /** The royalty table of the token's series (empty when there is none). */
    function RoyaltyOf(tokenId: TokenId): map<AccountId, nat>
      reads this
    {
      var seriesId := SeriesPart(tokenId);
      if seriesId in tokenSeriesById then tokenSeriesById[seriesId].royalty else map[]
    }

    /** The creator-only calls: one yoctoNEAR attached, the series exists, the caller created it. */
    ghost predicate CreatorCall(caller: AccountId, deposit: nat, seriesId: TokenSeriesId)
      reads this
    {
      deposit == 1 && seriesId in tokenSeriesById && caller == tokenSeriesById[seriesId].creatorId
    }

    /** `new`: no series and no tokens; the given fee in force with nothing scheduled. */
    constructor (ownerId: AccountId, treasuryId: AccountId, currentFee: nat)
      requires currentFee < FEE_DENOMINATOR
      ensures Valid()
      ensures this.ownerId == ownerId && this.treasuryId == treasuryId
      ensures transactionFee == InitialFee(currentFee)
      ensures marketDataTransactionFee == map[] && tokenSeriesById == map[]
      ensures ownerById == map[] && tokenMetadataById == map[] && tokensPerOwner == map[]
      ensures approvalsById == map[] && nextApprovalIdById == map[]
    {
      this.ownerId := ownerId;
      this.treasuryId := treasuryId;
      transactionFee := InitialFee(currentFee);
      marketDataTransactionFee := map[];
      tokenSeriesById := map[];
      ownerById := map[];
      tokenMetadataById := map[];
      tokensPerOwner := map[];
      approvalsById := map[];
      nextApprovalIdById := map[];
    }

    /** `set_transaction_fee`: the owner changes the fee now, or schedules it for a later second. */
    method SetTransactionFee(caller: AccountId, deposit: nat, nextFee: nat, startTime: Option<nat>, blockTimestamp: nat)
      returns (r: Result<(), Error>)
      requires Valid()
      modifies this`transactionFee
      ensures Valid()
      ensures deposit != 1 ==> r == Failure(RequiresOneYocto)
      ensures deposit == 1 && caller != ownerId ==> r == Failure(OwnerOnly)
      ensures r.Success? <==>
        deposit == 1 && caller == ownerId && SetFee(old(transactionFee), nextFee, startTime, ToSec(blockTimestamp)).Success?
      ensures r.Success? ==> transactionFee == SetFee(old(transactionFee), nextFee, startTime, ToSec(blockTimestamp)).value
      ensures deposit == 1 && caller == ownerId && r.Failure? ==>
        r.error == SetFee(old(transactionFee), nextFee, startTime, ToSec(blockTimestamp)).error
      ensures r.Failure? ==> unchanged(this)
    {
      if deposit != 1 {
        return Failure(RequiresOneYocto);
      }
      if caller != ownerId {
        return Failure(OwnerOnly);
      }
      if nextFee >= FEE_DENOMINATOR {
        return Failure(FeeTooHigh);
      }
      if startTime.None? {
        transactionFee := TransactionFee(None, None, nextFee);
        return Success(());
      }
      if startTime.value <= ToSec(blockTimestamp) {
        return Failure(StartTimeInPast);
      }
      transactionFee := transactionFee.(nextFee := Some(nextFee), startTime := startTime);
      return Success(());
    }

    /** `calculate_current_transaction_fee`: commit a due scheduled fee, then report the fee in force. */
    method CalculateCurrentTransactionFee(blockTimestamp: nat) returns (fee: nat)
      requires Valid()
      modifies this`transactionFee
      ensures Valid()
      ensures transactionFee == ResolveFee(old(transactionFee), ToSec(blockTimestamp))
      ensures fee == transactionFee.currentFee && fee < FEE_DENOMINATOR
    {
      if transactionFee.nextFee.Some? {
        if ToSec(blockTimestamp) >= transactionFee.startTime.value {
          transactionFee := TransactionFee(None, None, transactionFee.nextFee.value);
        }
      }
      fee := transactionFee.currentFee;
    }

    /** `calculate_market_data_transaction_fee`: a series' snapshot wins; only without one is the global fee resolved. */
    method CalculateMarketDataTransactionFee(seriesId: TokenSeriesId, blockTimestamp: nat) returns (fee: nat)
      requires Valid()
      modifies this`transactionFee
      ensures Valid()
      ensures transactionFee ==
        if seriesId in marketDataTransactionFee then old(transactionFee)
        else ResolveFee(old(transactionFee), ToSec(blockTimestamp))
      ensures fee == SeriesFee(marketDataTransactionFee, transactionFee, seriesId)
      ensures fee < FEE_DENOMINATOR
    {
      if seriesId in marketDataTransactionFee {
        return marketDataTransactionFee[seriesId];
      }
      fee := CalculateCurrentTransactionFee(blockTimestamp);
    }

    /** `get_market_data_transaction_fee`: the view reads the stored fee without resolving a due change. */
    function GetMarketDataTransactionFee(seriesId: TokenSeriesId): (fee: nat)
      reads this
      ensures Valid() ==> fee < FEE_DENOMINATOR
      ensures seriesId in marketDataTransactionFee ==> fee == marketDataTransactionFee[seriesId]
      ensures seriesId !in marketDataTransactionFee ==> fee == transactionFee.currentFee
    {
      SeriesFee(marketDataTransactionFee, transactionFee, seriesId)
    }

    /**
     * `nft_create_series`: store a new series under id `len + 1`, created by the caller, open
     * for minting, and snapshot the fee in force for it.
     */
    method NftCreateSeries(
      caller: AccountId, creatorId: Option<AccountId>, tokenMetadata: TokenMetadata,
      price: Option<nat>, royalty: Option<map<AccountId, nat>>, validAccountId: AccountId -> bool,
      blockTimestamp: nat)
      returns (r: Result<TokenSeriesJson, Error>)
      requires Valid()
      modifies this`tokenSeriesById, this`transactionFee, this`marketDataTransactionFee
      ensures Valid()
      ensures creatorId.Some? && creatorId.value != caller ==> r == Failure(CallerNotCreatorId)
      ensures (creatorId.Some? ==> creatorId.value == caller) && tokenMetadata.title.None? ==> r == Failure(TitleRequired)
      ensures (creatorId.Some? ==> creatorId.value == caller) && tokenMetadata.title.Some?
        && RoyaltyAccepted(royalty.GetOr(map[]), validAccountId) && |royalty.GetOr(map[])| > MAX_ROYALTY_ACCOUNTS
        ==> r == Failure(TooManyRoyaltyAccounts)
      ensures ((creatorId.Some? ==> creatorId.value == caller) && tokenMetadata.title.Some?
               && !RoyaltyAccepted(royalty.GetOr(map[]), validAccountId))
        ==> r == Failure(InvalidRoyaltyAccount) || r == Failure(ArithmeticOverflow)
      ensures ((creatorId.Some? ==> creatorId.value == caller) && tokenMetadata.title.Some?
               && RoyaltyAccepted(royalty.GetOr(map[]), validAccountId) && |royalty.GetOr(map[])| <= MAX_ROYALTY_ACCOUNTS
               && SumValues(royalty.GetOr(map[])) > MAX_ROYALTY_TOTAL)
        ==> r == Failure(RoyaltyTooHigh)
      ensures ((creatorId.Some? ==> creatorId.value == caller) && tokenMetadata.title.Some?
               && RoyaltyAccepted(royalty.GetOr(map[]), validAccountId) && |royalty.GetOr(map[])| <= MAX_ROYALTY_ACCOUNTS
               && SumValues(royalty.GetOr(map[])) <= MAX_ROYALTY_TOTAL && price.Some? && price.value >= MAX_PRICE)
        ==> r == Failure(PriceTooHigh)
      ensures r.Success? <==> SeriesAccepted(caller, creatorId, tokenMetadata, price, royalty.GetOr(map[]), validAccountId)
      ensures r.Failure? ==> unchanged(this)
      ensures r.Success? ==>
        var id := NextSeriesId(old(tokenSeriesById));
        && id !in old(tokenSeriesById)
        && tokenSeriesById == old(tokenSeriesById)[id := NewSeries(caller, tokenMetadata, price, royalty.GetOr(map[]))]
        && transactionFee == ResolveFee(old(transactionFee), ToSec(blockTimestamp))
        && marketDataTransactionFee == old(marketDataTransactionFee)[id := transactionFee.currentFee]
        && r.value == TokenSeriesJson(id, tokenMetadata, caller, royalty.GetOr(map[]), Some(transactionFee.currentFee))
    {
      var checked := CheckSeries(caller, creatorId, tokenMetadata, price, royalty, validAccountId);
      if checked.Failure? {
        return Failure(checked.error);
      }
      var table := checked.value;
      // The source also refuses an id already in use; `len + 1` never is one.
      NextSeriesIdFresh(tokenSeriesById);
      var id := NextSeriesId(tokenSeriesById);
      StoreNewSeries(NewSeries(caller, tokenMetadata, price, table));
      var fee := CalculateCurrentTransactionFee(blockTimestamp);
      marketDataTransactionFee := marketDataTransactionFee[id := fee];
      return Success(TokenSeriesJson(id, tokenMetadata, caller, table, Some(fee)));
    }

    /**
     * `_nft_mint_series`: mint edition n + 1 of the series to `receiverId`, recording its owner,
     * its metadata (only the issue time) and its index entry.
     */
    method MintSeries(seriesId: TokenSeriesId, receiverId: AccountId, blockTimestamp: nat)
      returns (r: Result<TokenId, Error>)
      requires Valid()
      modifies this`tokenSeriesById, this`ownerById, this`tokenMetadataById, this`tokensPerOwner
      ensures Valid()
      ensures seriesId !in old(tokenSeriesById) ==> r == Failure(SeriesNotFound)
      ensures r.Success? <==> seriesId in old(tokenSeriesById) && MintStep(seriesId, old(tokenSeriesById)[seriesId]).Success?
      ensures seriesId in old(tokenSeriesById) && r.Failure? ==> r.error == MintStep(seriesId, old(tokenSeriesById)[seriesId]).error
      ensures r.Failure? ==> unchanged(this)
      ensures r.Success? ==>
        Minted(old(tokenSeriesById), old(ownerById), old(tokenMetadataById), old(tokensPerOwner),
          tokenSeriesById, ownerById, tokenMetadataById, tokensPerOwner, seriesId, receiverId, blockTimestamp, r.value)
      ensures r.Success? ==> r.value !in approvalsById && r.value !in nextApprovalIdById
    {
      if seriesId !in tokenSeriesById {
        return Failure(SeriesNotFound);
      }
      var series := tokenSeriesById[seriesId];
      var minted := MintStep(seriesId, series);
      if minted.Failure? {
        return Failure(minted.error);
      }
      var tokenId := MakeTokenId(seriesId, |series.tokens| + 1);
      var metadata := Projection.MintedTokenMetadata(blockTimestamp);
      MintKeepsRegistry(tokenSeriesById, ownerById, tokenMetadataById, tokensPerOwner, approvalsById, nextApprovalIdById,
        seriesId, receiverId, metadata);
      tokenSeriesById := tokenSeriesById[seriesId := minted.value];
      ownerById := ownerById[tokenId := receiverId];
      tokenMetadataById := tokenMetadataById[tokenId := metadata];
      tokensPerOwner := tokensPerOwner[receiverId := TokensOf(tokensPerOwner, receiverId) + {tokenId}];
      return Success(tokenId);
    }

    /**
     * `nft_buy`: anyone pays at least the price; the next edition goes to `receiverId` and the
     * price is split between the creator and the treasury by the series' fee.
     */
    method NftBuy(deposit: nat, seriesId: TokenSeriesId, receiverId: AccountId, blockTimestamp: nat)
      returns (r: Result<Sale, Error>)
      requires Valid()
      modifies this`tokenSeriesById, this`ownerById, this`tokenMetadataById, this`tokensPerOwner, this`transactionFee
      ensures Valid()
      ensures seriesId !in old(tokenSeriesById) ==> r == Failure(SeriesNotFound)
      ensures seriesId in old(tokenSeriesById) && old(tokenSeriesById)[seriesId].price.None? ==> r == Failure(NotForSale)
      ensures (seriesId in old(tokenSeriesById) && old(tokenSeriesById)[seriesId].price.Some?
               && deposit < old(tokenSeriesById)[seriesId].price.value) ==> r == Failure(DepositBelowPrice)
      ensures r.Success? <==>
        && seriesId in old(tokenSeriesById)
        && old(tokenSeriesById)[seriesId].price.Some?
        && deposit >= old(tokenSeriesById)[seriesId].price.value
        && MintStep(seriesId, old(tokenSeriesById)[seriesId]).Success?
      ensures r.Failure? ==> unchanged(this)
      ensures r.Success? ==>
        var series := old(tokenSeriesById)[seriesId];
        && Minted(old(tokenSeriesById), old(ownerById), old(tokenMetadataById), old(tokensPerOwner),
          tokenSeriesById, ownerById, tokenMetadataById, tokensPerOwner, seriesId, receiverId, blockTimestamp, r.value.tokenId)
        && transactionFee == (if seriesId in marketDataTransactionFee then old(transactionFee)
                              else ResolveFee(old(transactionFee), ToSec(blockTimestamp)))
        && r.value.transfers == SaleTransfers(series.creatorId, treasuryId, series.price.value,
                                              SeriesFee(marketDataTransactionFee, transactionFee, seriesId))
        && TotalAmount(r.value.transfers) == series.price.value
    {
      if seriesId !in tokenSeriesById {
        return Failure(SeriesNotFound);
      }
      var series := tokenSeriesById[seriesId];
      if series.price.None? {
        return Failure(NotForSale);
      }
      var price := series.price.value;
      assert EntryValid(tokenSeriesById, seriesId);
      if deposit < price {
        return Failure(DepositBelowPrice);
      }
      var minted := MintSeries(seriesId, receiverId, blockTimestamp);
      if minted.Failure? {
        return Failure(minted.error);
      }
      var feeBp := CalculateMarketDataTransactionFee(seriesId, blockTimestamp);
      // `price * fee` is a checked u128 product; it always fits.
      BuyProductFitsU128(price, feeBp);
      return Success(Sale(minted.value, SaleTransfers(series.creatorId, treasuryId, price, feeBp)));
    }

    /** `nft_mint`: the creator mints the next edition to `receiverId`. */
    method NftMint(caller: AccountId, seriesId: TokenSeriesId, receiverId: AccountId, blockTimestamp: nat)
      returns (r: Result<TokenId, Error>)
      requires Valid()
      modifies this`tokenSeriesById, this`ownerById, this`tokenMetadataById, this`tokensPerOwner
      ensures Valid()
      ensures seriesId !in old(tokenSeriesById) ==> r == Failure(SeriesNotFound)
      ensures seriesId in old(tokenSeriesById) && caller != old(tokenSeriesById)[seriesId].creatorId ==> r == Failure(NotCreator)
      ensures r.Success? <==>
        && seriesId in old(tokenSeriesById)
        && caller == old(tokenSeriesById)[seriesId].creatorId
        && MintStep(seriesId, old(tokenSeriesById)[seriesId]).Success?
      ensures r.Failure? ==> unchanged(this)
      ensures r.Success? ==>
        Minted(old(tokenSeriesById), old(ownerById), old(tokenMetadataById), old(tokensPerOwner),
          tokenSeriesById, ownerById, tokenMetadataById, tokensPerOwner, seriesId, receiverId, blockTimestamp, r.value)
    {
      if seriesId !in tokenSeriesById {
        return Failure(SeriesNotFound);
      }
      if caller != tokenSeriesById[seriesId].creatorId {
        return Failure(NotCreator);
      }
      r := MintSeries(seriesId, receiverId, blockTimestamp);
    }

    /**
     * `nft_mint_and_approve`: the creator mints the next edition to itself and approves
     * `accountId` for it; a fresh token's first approval id is 1. With a message, the
     * `nft_on_approve` notice to `accountId` is returned.
     */
    method NftMintAndApprove(caller: AccountId, seriesId: TokenSeriesId, accountId: AccountId, msg: Option<string>, blockTimestamp: nat)
      returns (r: Result<Option<ApprovalNotice>, Error>)
      requires Valid()
      modifies this`tokenSeriesById, this`ownerById, this`tokenMetadataById, this`tokensPerOwner
      modifies this`approvalsById, this`nextApprovalIdById
      ensures Valid()
      ensures seriesId !in old(tokenSeriesById) ==> r == Failure(SeriesNotFound)
      ensures seriesId in old(tokenSeriesById) && caller != old(tokenSeriesById)[seriesId].creatorId ==> r == Failure(NotCreator)
      ensures r.Success? <==>
        && seriesId in old(tokenSeriesById)
        && caller == old(tokenSeriesById)[seriesId].creatorId
        && MintStep(seriesId, old(tokenSeriesById)[seriesId]).Success?
      ensures r.Failure? ==> unchanged(this)
      ensures r.Success? ==>
        var creatorId := old(tokenSeriesById)[seriesId].creatorId;
        var tokenId := MakeTokenId(seriesId, |old(tokenSeriesById)[seriesId].tokens| + 1);
        && Minted(old(tokenSeriesById), old(ownerById), old(tokenMetadataById), old(tokensPerOwner),
          tokenSeriesById, ownerById, tokenMetadataById, tokensPerOwner, seriesId, creatorId, blockTimestamp, tokenId)
        && approvalsById == old(approvalsById)[tokenId := map[accountId := 1]]
        && nextApprovalIdById == old(nextApprovalIdById)[tokenId := 2]
        && r.value == (if msg.Some? then Some(ApprovalNotice(tokenId, creatorId, 1, msg.value, accountId)) else None)
    {
      if seriesId !in tokenSeriesById {
        return Failure(SeriesNotFound);
      }
      var creatorId := tokenSeriesById[seriesId].creatorId;
      if caller != creatorId {
        return Failure(NotCreator);
      }
      var minted := MintSeries(seriesId, creatorId, blockTimestamp);
      if minted.Failure? {
        return Failure(minted.error);
      }
      var tokenId := minted.value;
      // Minting left the approval maps alone, and a fresh token has no approvals and no counter yet.
      assert approvalsById == old(approvalsById) && nextApprovalIdById == old(nextApprovalIdById);
      assert ApprovalsOf(approvalsById, tokenId) == map[] && NextApprovalId(nextApprovalIdById, tokenId) == 1;
      var approvalId := Approve(tokenId, accountId);
      var notice := if msg.Some? then Some(ApprovalNotice(tokenId, creatorId, approvalId, msg.value, accountId)) else None;
      return Success(notice);
    }

    /**
     * The approval step `nft_mint_and_approve` copies from NEP-178 `nft_approve`: the account
     * gets the token's next approval id (1 when the token has none yet), and the counter moves on.
     */
    method Approve(tokenId: TokenId, accountId: AccountId) returns (approvalId: nat)
      requires Valid() && tokenId in ownerById
      modifies this`approvalsById, this`nextApprovalIdById
      ensures Valid()
      ensures approvalId == NextApprovalId(old(nextApprovalIdById), tokenId)
      ensures approvalsById == old(approvalsById)[tokenId := ApprovalsOf(old(approvalsById), tokenId)[accountId := approvalId]]
      ensures nextApprovalIdById == old(nextApprovalIdById)[tokenId := approvalId + 1]
    {
      var approved := ApprovalsOf(approvalsById, tokenId);
      approvalId := NextApprovalId(nextApprovalIdById, tokenId);
      ApproveKeepsRegistry(tokenSeriesById, ownerById, tokenMetadataById, tokensPerOwner, approvalsById, nextApprovalIdById,
        tokenId, approved[accountId := approvalId], approvalId + 1);
      approvalsById := approvalsById[tokenId := approved[accountId := approvalId]];
      nextApprovalIdById := nextApprovalIdById[tokenId := approvalId + 1];
    }

    /** Store a series with no tokens yet under the next free id, `len + 1`. */
    method StoreNewSeries(series: TokenSeries)
      requires Valid() && series.tokens == {} && SeriesValid(NextSeriesId(tokenSeriesById), series)
      modifies this`tokenSeriesById
      ensures Valid()
      ensures NextSeriesId(old(tokenSeriesById)) !in old(tokenSeriesById)
      ensures tokenSeriesById == old(tokenSeriesById)[NextSeriesId(old(tokenSeriesById)) := series]
    {
      var id := NextSeriesId(tokenSeriesById);
      AddSeriesKeepsStore(tokenSeriesById, series);
      UpdateSeriesKeepsRegistry(tokenSeriesById, ownerById, tokenMetadataById, tokensPerOwner, approvalsById, nextApprovalIdById, id, series);
      tokenSeriesById := tokenSeriesById[id := series];
    }

    /** Store a new record for an existing series with the same minted tokens. */
    method ReplaceSeries(seriesId: TokenSeriesId, series: TokenSeries)
      requires Valid() && seriesId in tokenSeriesById
      requires SeriesValid(seriesId, series) && series.tokens == tokenSeriesById[seriesId].tokens
      modifies this`tokenSeriesById
      ensures Valid()
      ensures tokenSeriesById == old(tokenSeriesById)[seriesId := series]
    {
      UpdateSeriesKeepsStore(tokenSeriesById, seriesId, series);
      UpdateSeriesKeepsRegistry(tokenSeriesById, ownerById, tokenMetadataById, tokensPerOwner, approvalsById, nextApprovalIdById, seriesId, series);
      tokenSeriesById := tokenSeriesById[seriesId := series];
    }

    /** `nft_set_series_non_mintable`: the creator closes an open series that has no cap. */
    method NftSetSeriesNonMintable(caller: AccountId, deposit: nat, seriesId: TokenSeriesId)
      returns (r: Result<(), Error>)
      requires Valid()
      modifies this`tokenSeriesById
      ensures Valid()
      ensures deposit != 1 ==> r == Failure(RequiresOneYocto)
      ensures deposit == 1 && seriesId !in old(tokenSeriesById) ==> r == Failure(SeriesNotFound)
      ensures deposit == 1 && seriesId in old(tokenSeriesById) && caller != old(tokenSeriesById)[seriesId].creatorId
        ==> r == Failure(NotCreator)
      ensures r.Success? <==> old(CreatorCall(caller, deposit, seriesId)) && CloseStep(old(tokenSeriesById)[seriesId]).Success?
      ensures r.Failure? ==> unchanged(this)
      ensures r.Success? ==> tokenSeriesById == old(tokenSeriesById)[seriesId := CloseStep(old(tokenSeriesById)[seriesId]).value]
    {
      if deposit != 1 {
        return Failure(RequiresOneYocto);
      }
      if seriesId !in tokenSeriesById {
        return Failure(SeriesNotFound);
      }
      var series := tokenSeriesById[seriesId];
      if caller != series.creatorId {
        return Failure(NotCreator);
      }
      var closed := CloseStep(series);
      if closed.Failure? {
        return Failure(closed.error);
      }
      assert EntryValid(tokenSeriesById, seriesId);
      ApplyOpKeepsSeries(seriesId, series, Close);
      ReplaceSeries(seriesId, closed.value);
      return Success(());
    }

    /**
     * `nft_decrease_series_copies`: the creator lowers a series' cap, never below the minted
     * count; reaching it closes the series. Returns the new cap.
     */
    method NftDecreaseSeriesCopies(caller: AccountId, deposit: nat, seriesId: TokenSeriesId, decrease: nat)
      returns (r: Result<nat, Error>)
      requires Valid()
      modifies this`tokenSeriesById
      ensures Valid()
      ensures deposit != 1 ==> r == Failure(RequiresOneYocto)
      ensures deposit == 1 && seriesId !in old(tokenSeriesById) ==> r == Failure(SeriesNotFound)
      ensures deposit == 1 && seriesId in old(tokenSeriesById) && caller != old(tokenSeriesById)[seriesId].creatorId
        ==> r == Failure(NotCreator)
      ensures r.Success? <==>
        old(CreatorCall(caller, deposit, seriesId)) && DecreaseCopiesStep(old(tokenSeriesById)[seriesId], decrease).Success?
      ensures r.Failure? ==> unchanged(this)
      ensures r.Success? ==>
        var series := DecreaseCopiesStep(old(tokenSeriesById)[seriesId], decrease).value;
        && tokenSeriesById == old(tokenSeriesById)[seriesId := series]
        && series.metadata.copies == Some(r.value)
        && r.value >= |series.tokens|
    {
      if deposit != 1 {
        return Failure(RequiresOneYocto);
      }
      if seriesId !in tokenSeriesById {
        return Failure(SeriesNotFound);
      }
      var series := tokenSeriesById[seriesId];
      if caller != series.creatorId {
        return Failure(NotCreator);
      }
      var decreased := DecreaseCopiesStep(series, decrease);
      if decreased.Failure? {
        return Failure(decreased.error);
      }
      assert EntryValid(tokenSeriesById, seriesId);
      ApplyOpKeepsSeries(seriesId, series, DecreaseCopies(decrease));
      ReplaceSeries(seriesId, decreased.value);
      return Success(decreased.value.metadata.copies.value);
    }

    /**
     * `nft_set_series_price`: the creator of an open series changes (or removes) its price, and
     * the series' fee snapshot is taken again at the fee now in force.
     */
    method NftSetSeriesPrice(caller: AccountId, deposit: nat, seriesId: TokenSeriesId, price: Option<nat>, blockTimestamp: nat)
      returns (r: Result<Option<nat>, Error>)
      requires Valid()
      modifies this`tokenSeriesById, this`transactionFee, this`marketDataTransactionFee
      ensures Valid()
      ensures deposit != 1 ==> r == Failure(RequiresOneYocto)
      ensures deposit == 1 && seriesId !in old(tokenSeriesById) ==> r == Failure(SeriesNotFound)
      ensures deposit == 1 && seriesId in old(tokenSeriesById) && caller != old(tokenSeriesById)[seriesId].creatorId
        ==> r == Failure(NotCreator)
      ensures r.Success? <==> old(CreatorCall(caller, deposit, seriesId)) && SetPriceStep(old(tokenSeriesById)[seriesId], price).Success?
      ensures r.Failure? ==> unchanged(this)
      ensures r.Success? ==>
        && r.value == price
        && tokenSeriesById == old(tokenSeriesById)[seriesId := old(tokenSeriesById)[seriesId].(price := price)]
        && transactionFee == ResolveFee(old(transactionFee), ToSec(blockTimestamp))
        && marketDataTransactionFee == old(marketDataTransactionFee)[seriesId := transactionFee.currentFee]
    {
      if deposit != 1 {
        return Failure(RequiresOneYocto);
      }
      if seriesId !in tokenSeriesById {
        return Failure(SeriesNotFound);
      }
      var series := tokenSeriesById[seriesId];
      if caller != series.creatorId {
        return Failure(NotCreator);
      }
      var priced := SetPriceStep(series, price);
      if priced.Failure? {
        return Failure(priced.error);
      }
      assert EntryValid(tokenSeriesById, seriesId);
      ApplyOpKeepsSeries(seriesId, series, SetPrice(price));
      ReplaceSeries(seriesId, priced.value);
      var fee := CalculateCurrentTransactionFee(blockTimestamp);
      marketDataTransactionFee := marketDataTransactionFee[seriesId := fee];
      return Success(price);
    }

    /**
     * `nft_burn`: the owner destroys a token: its owner, metadata, approvals, approval counter
     * and index entry go. The series still lists the id, so the edition is never minted again.
     */
    method NftBurn(caller: AccountId, deposit: nat, tokenId: TokenId) returns (r: Result<(), Error>)
      requires Valid()
      modifies this`ownerById, this`tokenMetadataById, this`tokensPerOwner, this`approvalsById, this`nextApprovalIdById
      ensures Valid()
      ensures deposit != 1 ==> r == Failure(RequiresOneYocto)
      ensures deposit == 1 && tokenId !in old(ownerById) ==> r == Failure(TokenNotFound)
      ensures r.Success? <==> deposit == 1 && tokenId in old(ownerById) && old(ownerById)[tokenId] == caller
      ensures r.Failure? ==> unchanged(this)
      ensures r.Success? ==>
        && ownerById == old(ownerById) - {tokenId}
        && tokenMetadataById == old(tokenMetadataById) - {tokenId}
        && approvalsById == old(approvalsById) - {tokenId}
        && nextApprovalIdById == old(nextApprovalIdById) - {tokenId}
        && caller in old(tokensPerOwner)
        && tokensPerOwner == old(tokensPerOwner)[caller := old(tokensPerOwner)[caller] - {tokenId}]
        && NftToken(tokenId) == Success(None)
    {
      if deposit != 1 {
        return Failure(RequiresOneYocto);
      }
      if tokenId !in ownerById {
        return Failure(TokenNotFound);
      }
      var owner := ownerById[tokenId];
      if owner != caller {
        return Failure(NotTokenOwner);
      }
      BurnKeepsRegistry(tokenSeriesById, ownerById, tokenMetadataById, tokensPerOwner, approvalsById, nextApprovalIdById, tokenId);
      nextApprovalIdById := nextApprovalIdById - {tokenId};
      approvalsById := approvalsById - {tokenId};
      tokensPerOwner := tokensPerOwner[owner := tokensPerOwner[owner] - {tokenId}];
      tokenMetadataById := tokenMetadataById - {tokenId};
      ownerById := ownerById - {tokenId};
      return Success(());
    }

    /** `nft_token`: the token joined with its series, or None when nobody owns the id. */
    function NftToken(tokenId: TokenId): (r: Result<Option<Token>, Error>)
      reads this
      ensures r == Success(None) <==> tokenId !in ownerById
    {
      Projection.NftToken(ownerById, approvalsById, tokenMetadataById, tokenSeriesById, tokenId)
    }

    /**
     * On a consistent state the view of an owned token never aborts: the id names a series
     * and an edition, and the token is titled "<series title> #<edition>".
     */
    lemma OwnedTokenView(tokenId: TokenId)
      requires Valid() && tokenId in ownerById
      ensures SeriesPart(tokenId) in tokenSeriesById && EditionOf(tokenId).Some?
      ensures tokenId == MakeTokenId(SeriesPart(tokenId), EditionOf(tokenId).value)
      ensures NftToken(tokenId).Success? && NftToken(tokenId).value.Some?
      ensures NftToken(tokenId).value.value.ownerId == ownerById[tokenId]
      ensures NftToken(tokenId).value.value.metadata.value.title
        == Some(tokenSeriesById[SeriesPart(tokenId)].metadata.title.value + TITLE_DELIMITER + NatToString(EditionOf(tokenId).value))
    {
      OwnedTokenSeries(tokenSeriesById, ownerById, tokenMetadataById, tokensPerOwner, approvalsById, nextApprovalIdById, tokenId);
      Projection.NftTokenOfMinted(ownerById, approvalsById, tokenMetadataById, tokenSeriesById, SeriesPart(tokenId), EditionOf(tokenId).value);
    }

    /** On a consistent state the royalty table a token pays out is within the 90% cap. */
    lemma RoyaltyOfBounded(tokenId: TokenId)
      requires Valid() && tokenId in ownerById
      ensures SumValues(RoyaltyOf(tokenId)) <= MAX_ROYALTY_TOTAL
    {
      OwnedTokenSeries(tokenSeriesById, ownerById, tokenMetadataById, tokensPerOwner, approvalsById, nextApprovalIdById, tokenId);
    }

    /**
     * `nft_payout`: the royalty holders other than the owner get their basis points of
     * `balance`, rounded down, and the owner gets the rest of the 10_000 basis points.
     */
    method NftPayout(tokenId: TokenId, balance: nat, maxLenPayout: nat) returns (r: Result<map<AccountId, nat>, Error>)
      requires Valid()
      ensures tokenId !in ownerById ==> r == Failure(TokenNotFound)
      ensures tokenId in ownerById && |RoyaltyOf(tokenId)| > maxLenPayout ==> r == Failure(TooManyPayoutReceivers)
      ensures r.Success? <==>
        tokenId in ownerById && |RoyaltyOf(tokenId)| <= maxLenPayout && PayoutFits(RoyaltyOf(tokenId), ownerById[tokenId], balance)
      ensures tokenId in ownerById && |RoyaltyOf(tokenId)| <= maxLenPayout && r.Failure? ==> r.error == ArithmeticOverflow
      ensures r.Success? ==>
        && r.value == PayoutSpec(RoyaltyOf(tokenId), ownerById[tokenId], balance)
        && SumValues(r.value) <= balance
    {
      if tokenId !in ownerById {
        return Failure(TokenNotFound);
      }
      var owner := ownerById[tokenId];
      OwnedTokenSeries(tokenSeriesById, ownerById, tokenMetadataById, tokensPerOwner, approvalsById, nextApprovalIdById, tokenId);
      var seriesId := SeriesPart(tokenId);
      if seriesId !in tokenSeriesById {
        return Failure(SeriesNotFound);
      }
      r := NftPayoutOf(tokenSeriesById[seriesId].royalty, owner, balance, maxLenPayout);
    }

    /**
     * `nft_transfer_payout`: transfer the token (NEP-171 rules) and, when a balance is given,
     * return the payout owed on it to the previous owner and the royalty holders.
     * Every check comes before any change, so an abort leaves the state as it was, as a
     * panic after the transfer does in the source.
     */
    method NftTransferPayout(
      caller: AccountId, deposit: nat, receiverId: AccountId, tokenId: TokenId,
      approvalId: Option<nat>, balance: Option<nat>, maxLenPayout: Option<nat>)
      returns (r: Result<Option<map<AccountId, nat>>, Error>)
      requires Valid()
      modifies this`ownerById, this`tokensPerOwner, this`approvalsById
      ensures Valid()
      ensures deposit != 1 ==> r == Failure(RequiresOneYocto)
      ensures deposit == 1 && tokenId !in old(ownerById) ==> r == Failure(TokenNotFound)
      ensures deposit == 1 && tokenId in old(ownerById)
        && !TransferAllowed(old(approvalsById), tokenId, old(ownerById)[tokenId], caller, receiverId, approvalId)
        ==> r == Failure(TransferRejected)
      ensures (deposit == 1 && tokenId in old(ownerById)
               && TransferAllowed(old(approvalsById), tokenId, old(ownerById)[tokenId], caller, receiverId, approvalId)
               && balance.Some? && maxLenPayout.None?) ==> r == Failure(MaxLenPayoutRequired)
      ensures r.Success? <==>
        && deposit == 1 && tokenId in old(ownerById)
        && TransferAllowed(old(approvalsById), tokenId, old(ownerById)[tokenId], caller, receiverId, approvalId)
        && (balance.Some? ==>
              && maxLenPayout.Some? && |old(RoyaltyOf(tokenId))| <= maxLenPayout.value
              && PayoutFits(old(RoyaltyOf(tokenId)), old(ownerById)[tokenId], balance.value))
      ensures r.Failure? ==> r.error != PayoutOverflow
      ensures r.Failure? ==> unchanged(this)
      ensures r.Success? ==>
        && tokenId in old(ownerById)
        && ownerById == old(ownerById)[tokenId := receiverId]
        && tokensPerOwner == MoveToken(old(tokensPerOwner), old(ownerById)[tokenId], receiverId, tokenId)
        && approvalsById == old(approvalsById) - {tokenId}
        && (r.value.Some? <==> balance.Some?)
        && (balance.Some? ==>
              && r.value.value == PayoutSpec(old(RoyaltyOf(tokenId)), old(ownerById)[tokenId], balance.value)
              && SumValues(r.value.value) <= balance.value)
    {
      if deposit != 1 {
        return Failure(RequiresOneYocto);
      }
      // `nft_token(..).expect("no token")`: on a consistent state the view aborts only for an unowned id.
      if tokenId !in ownerById {
        return Failure(TokenNotFound);
      }
      var previousOwnerId := ownerById[tokenId];
      if !TransferAllowed(approvalsById, tokenId, previousOwnerId, caller, receiverId, approvalId) {
        return Failure(TransferRejected);
      }
      var payout: Option<map<AccountId, nat>> := None;
      if balance.Some? {
        var royalty := RoyaltyOf(tokenId);
        var computed := TransferPayoutOf(royalty, previousOwnerId, balance.value, maxLenPayout);
        if computed.Failure? {
          RoyaltyOfBounded(tokenId);
          return Failure(computed.error);
        }
        payout := Some(computed.value);
      }
      ApplyTransfer(tokenId, receiverId);
      return Success(payout);
    }

    /**
     * The state change of the NEP-171 `nft_transfer` once its guard has passed: the token
     * changes owner, moves between index entries and loses its approvals.
     */
    method ApplyTransfer(tokenId: TokenId, receiverId: AccountId)
      requires Valid() && tokenId in ownerById
      modifies this`ownerById, this`tokensPerOwner, this`approvalsById
      ensures Valid()
      ensures ownerById == old(ownerById)[tokenId := receiverId]
      ensures tokensPerOwner == MoveToken(old(tokensPerOwner), old(ownerById)[tokenId], receiverId, tokenId)
      ensures approvalsById == old(approvalsById) - {tokenId}
    {
      TransferKeepsRegistry(tokenSeriesById, ownerById, tokenMetadataById, tokensPerOwner, approvalsById, nextApprovalIdById, tokenId, receiverId);
      tokensPerOwner := MoveToken(tokensPerOwner, ownerById[tokenId], receiverId, tokenId);
      ownerById := ownerById[tokenId := receiverId];
      approvalsById := approvalsById - {tokenId};
    }
  }
}
