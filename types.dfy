/** Entities and constants shared by the marketplace contract (nearlend-nft-contract/src/lib.rs). */
module Types {
  import opened Wrappers

  type AccountId = string
  type TokenId = string
  type TokenSeriesId = string

  /** Fees and royalties are basis points out of 10_000. */
  const FEE_DENOMINATOR: nat := 10_000
  /** A royalty table holds at most this many accounts ... */
  const MAX_ROYALTY_ACCOUNTS: nat := 10
  /** ... whose shares add up to at most 90%. */
  const MAX_ROYALTY_TOTAL: nat := 9_000
  /** `MAX_PRICE = 1_000_000_000 * 10^24` yoctoNEAR; a price must be strictly below it. */
  const MAX_PRICE: nat := 1_000_000_000 * 1_000_000_000_000_000_000_000_000
  const NANOS_PER_SEC: nat := 1_000_000_000
  const U16_MAX: nat := 0xFFFF
  const U32_MAX: nat := 0xFFFF_FFFF
  const U64_MAX: nat := 0xFFFF_FFFF_FFFF_FFFF
  /** 2^128: a `u128` value is strictly below it. */
  const U128_LIMIT: nat := 0x1_0000_0000_0000_0000_0000_0000_0000_0000

  /** Why a call aborted; every abort leaves the contract state as it was. */
  datatype Error =
    | RequiresOneYocto          // assert_one_yocto
    | OwnerOnly                 // caller is not the contract owner
    | FeeTooHigh                // fee of 10_000 basis points or more
    | StartTimeInPast           // scheduled fee change not strictly in the future
    | CallerNotCreatorId        // creator_id argument differs from the caller
    | TitleRequired             // series metadata without a title
    | InvalidRoyaltyAccount     // royalty key is not a valid account id
    | TooManyRoyaltyAccounts    // more than 10 royalty accounts
    | RoyaltyTooHigh            // royalty shares above 9000 basis points
    | PriceTooHigh              // price not below MAX_PRICE
    | SeriesNotFound            // unknown token series id
    | NotForSale                // series has no price
    | DepositBelowPrice         // attached deposit below the series price
    | NotCreator                // caller is not the series creator
    | NotMintable               // series closed for minting
    | SupplyMaxed               // every copy already minted
    | AlreadyNonMintable        // series already closed
    | CopiesNotNull             // closing a capped series must go through decrease_copies
    | CopiesNull                // decrease_copies on a series without a cap (unwrap of None)
    | BelowMinted               // new cap below the number already minted
    | ArithmeticOverflow        // a checked u32/u64/u128 operation overflowed or underflowed
    | TokenNotFound             // token id without an owner
    | NotTokenOwner             // caller does not own the token
    | TokenMetadataNotFound     // owned token without stored metadata
    | SeriesTitleMissing        // series metadata without a title at read time
    | MalformedTokenId          // token id without the ':' delimiter
    | MaxLenPayoutRequired      // max_len_payout omitted while a balance is given
    | TooManyPayoutReceivers    // royalty table longer than max_len_payout
    | PayoutOverflow            // royalty shares above 10_000 basis points at payout
    | TransferRejected          // the NEP-171 transfer refused the sender or the receiver

  /** NEP-177 token metadata; `copies` is a u64, every other field an optional string. */
  datatype TokenMetadata = TokenMetadata(
    title: Option<string>,
    description: Option<string>,
    media: Option<string>,
    mediaHash: Option<string>,
    copies: Option<nat>,
    issuedAt: Option<string>,
    expiresAt: Option<string>,
    startsAt: Option<string>,
    updatedAt: Option<string>,
    extra: Option<string>,
    reference: Option<string>,
    referenceHash: Option<string>)

  /** A series: its metadata, creator, the ids minted so far, price, mintability and royalty table. */
  datatype TokenSeries = TokenSeries(
    metadata: TokenMetadata,
    creatorId: AccountId,
    tokens: set<TokenId>,
    price: Option<nat>,
    isMintable: bool,
    royalty: map<AccountId, nat>)

  /** The view of one token returned by `nft_token`. */
  datatype Token = Token(
    tokenId: TokenId,
    ownerId: AccountId,
    metadata: Option<TokenMetadata>,
    approvedAccountIds: Option<map<AccountId, nat>>)

  /** The record `nft_create_series` returns. */
  datatype TokenSeriesJson = TokenSeriesJson(
    tokenSeriesId: TokenSeriesId,
    metadata: TokenMetadata,
    creatorId: AccountId,
    royalty: map<AccountId, nat>,
    transactionFee: Option<nat>)

  /** A `Promise::new(receiver).transfer(amount)` the contract issues. */
  datatype Transfer = Transfer(receiver: AccountId, amount: nat)

  /** The outcome of `nft_buy`: the minted token and the transfers of the sale price. */
  datatype Sale = Sale(tokenId: TokenId, transfers: seq<Transfer>)

  /** The `nft_on_approve` call `nft_mint_and_approve` issues when a message is given. */
  datatype ApprovalNotice = ApprovalNotice(
    tokenId: TokenId, ownerId: AccountId, approvalId: nat, msg: string, receiver: AccountId)
}
