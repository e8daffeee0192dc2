# Nearlend NFT marketplace, modelled in Dafny

This project models the marketplace contract of `nearlend-nft-contract/src/lib.rs`. It is a
NEAR smart contract in which creators publish *token series*. Each token of a series is minted
lazily, as edition `n + 1` of the series, when someone buys or mints it. The model covers these
parts of the contract:

- **the series store**: creation with royalty tables of at most 10 accounts and 90%, price
  changes, closing a series, and lowering its cap of copies;
- **the NEP-171 token registry**: the owner of each token, its metadata, the per-owner index,
  approvals and approval counters. Minting, burning, approving and transferring change it;
- **the fee schedule**: a current fee in basis points and one pending change that takes effect
  lazily, plus a per-series snapshot of the fee;
- **sales**: the split of a price between the creator and the treasury;
- **royalty payouts**: who is owed what, in `nft_payout` and `nft_transfer_payout`;
- **the token view**: `nft_token`, which joins a token with its series' metadata;
- **token ids**: the format `"<series id>:<edition>"`.

The contract is the class `Marketplace.Contract`. Its fields are the maps the source keeps in
storage. Each entry point is a method that either succeeds and states the whole new state, or
returns the `Failure` that stands for the source's panic and leaves the state unchanged. Every
entry point keeps the invariant `Valid()`, which says:

- every fee is below 10 000;
- every series lists exactly the editions `1..n` of its own id;
- every owned token belongs to a series and appears in its owner's index entry;
- metadata, approvals and approval counters exist only for owned tokens.

The caller, the attached deposit and the block timestamp are parameters. The account-id
validity check of the NEAR SDK is a function parameter, `validAccountId`.

The pure parts live in modules over values:

- `TokenIds`: decimal ids and splitting at `:`;
- `FeeSchedule`;
- `Royalty`: royalty sums and payouts;
- `SeriesStore`: the per-series steps;
- `Registry`: the registry invariant and the lemmas that it is kept;
- `Projection`: the `nft_token` view.

Arithmetic follows the source's integer types. The model assumes the contract is built with
Rust's overflow checks on, so an overflow or underflow aborts the call as `ArithmeticOverflow`
(see "Left out" for the members this affects). `to_sec` truncates to 32 bits as its `as u32` cast does.

A payout need not sum to the balance: `royalty_to_payout` (lib.rs:1268-1270) rounds every share
down, so the sum is at most the balance and can be less. `Royalty.PayoutBounded` proves the bound
and `Royalty.PayoutMayLoseRounding` shows the gap.

## Model

| member | source | states |
|---|---|---|
| Marketplace.Contract.constructor | nearlend-nft-contract/src/lib.rs:176-204 | A fresh contract has no series, tokens or snapshots, and holds the given fee with nothing pending; the invariant holds (with the fee bound the source omits, see Findings) |
| FeeSchedule.InitialFee | nearlend-nft-contract/src/lib.rs:195-199 | The fee record `new` stores keeps the given u16 as the current fee with nothing pending; it is well formed exactly when the fee is below 10 000 |
| FeeSchedule.UncheckedInitialFeeOverdrawsSale | nearlend-nft-contract/src/lib.rs:195-199 | With an initial fee of 10 001 the treasury's cut of a 10 000 yocto sale exceeds the price |
| Marketplace.Contract.SetTransactionFee | nearlend-nft-contract/src/lib.rs:230-257 | Only the owner with exactly one yoctoNEAR may set the fee; it must be below 10 000 and a start time must lie after the current second; the new record is the one SetFee gives and the invariant is kept; any failure changes nothing |
| FeeSchedule.SetFee | nearlend-nft-contract/src/lib.rs:238-256 | Succeeds exactly for a fee below 10 000 and a start time (if any) in the future; without a start time the fee takes effect at once and drops any pending change; with one it is scheduled and the current fee stays; well-formedness is kept |
| FeeSchedule.ImmediateFeeIsFinal | nearlend-nft-contract/src/lib.rs:245-249 | A fee set without a start time is the current fee after every later resolve |
| FeeSchedule.ScheduledFeeTiming | nearlend-nft-contract/src/lib.rs:250-256 | A scheduled fee leaves the current fee in force before its start time and replaces it at or after it |
| FeeSchedule.ToSec | nearlend-nft-contract/src/lib.rs:1327-1329 | The seconds value fits in 32 bits, and below 2^32 seconds it is the floor of the timestamp over 10^9 |
| Marketplace.Contract.CalculateCurrentTransactionFee | nearlend-nft-contract/src/lib.rs:275-285 | Commits a pending fee whose start time has come and returns the fee in force, which is below 10 000 |
| FeeSchedule.ResolveFee | nearlend-nft-contract/src/lib.rs:276-283 | The result is well formed; either nothing is pending afterwards or nothing changed; the current fee is the old one or the pending one whose start time has come |
| FeeSchedule.PendingFeeWaits | nearlend-nft-contract/src/lib.rs:277-278 | A pending fee does not take effect before its start time |
| FeeSchedule.PendingFeeActivates | nearlend-nft-contract/src/lib.rs:277-282 | At or after its start time, a pending fee becomes the current fee and the pending pair is cleared |
| FeeSchedule.ResolveFeeStable | nearlend-nft-contract/src/lib.rs:275-285 | Resolving is idempotent, and resolving at t1 and then at a later t2 equals resolving at t2 |
| Marketplace.Contract.CalculateMarketDataTransactionFee | nearlend-nft-contract/src/lib.rs:259-273 | A series' snapshot wins and leaves the fee record untouched; without one the global fee is resolved and returned; the result is below 10 000 |
| FeeSchedule.SeriesFee | nearlend-nft-contract/src/lib.rs:263-272 | The fee for a series is its snapshot when it has one, else the record's current fee |
| FeeSchedule.SnapshotSurvivesActivation | nearlend-nft-contract/src/lib.rs:259-273 | A series' snapshot is unaffected by any later activation of the global fee |
| Marketplace.Contract.GetMarketDataTransactionFee | nearlend-nft-contract/src/lib.rs:291-301 | The view reports a fee below 10 000: the series' snapshot when it has one, and otherwise the stored current fee, not the resolved one |
| FeeSchedule.StaleFeeView | nearlend-nft-contract/src/lib.rs:291-301 | After a pending change comes due, the view keeps showing the old fee until some call resolves it |
| Marketplace.CheckSeries | nearlend-nft-contract/src/lib.rs:328-383 | Each argument error of series creation, in the source's order (caller is not creator_id, no title, invalid royalty account or u32 overflow, more than 10 accounts, more than 9000 bp, price at or above MAX_PRICE); succeeds exactly when all checks pass and yields the royalty table, empty if none was given |
| Royalty.SumRoyalty | nearlend-nft-contract/src/lib.rs:349-362 | Succeeds exactly when every royalty account is valid and the u32 running sum never overflows, and then returns the sum of the basis points; otherwise fails with InvalidRoyaltyAccount or ArithmeticOverflow, and with the one that must apply when only one can |
| Marketplace.Contract.NftCreateSeries | nearlend-nft-contract/src/lib.rs:318-434 | Each argument error in the source's order, as in CheckSeries; succeeds exactly when the arguments pass the checks; then stores a fresh, mintable, empty series created by the caller under id `len + 1`, snapshots the resolved fee for it and returns the series JSON; the invariant is kept; failures change nothing |
| SeriesStore.NextSeriesIdFresh | nearlend-nft-contract/src/lib.rs:336-341 | On a valid store the id `len + 1` is never in use, so the duplicate-id assertion never fires |
| SeriesStore.AddSeriesKeepsStore | nearlend-nft-contract/src/lib.rs:385-401 | Adding a valid series under the next id grows the store by one and keeps it valid |
| SeriesStore.UpdateSeriesKeepsStore | nearlend-nft-contract/src/lib.rs:601-602 | Replacing a series by a valid record for the same id keeps the store valid |
| SeriesStore.NewSeries | nearlend-nft-contract/src/lib.rs:387-400 | A new series has no tokens, is mintable and is credited to the caller |
| Marketplace.Contract.StoreNewSeries | nearlend-nft-contract/src/lib.rs:385-401 | Stores an empty series under the free id `len + 1` and keeps the invariant |
| Marketplace.Contract.NftBuy | nearlend-nft-contract/src/lib.rs:437-477 | Fails on a missing series, a series not for sale or a deposit below the price, and on mint failures; otherwise mints the next edition to the receiver and returns the sale, whose transfers split the price between creator and treasury by the series' fee |
| FeeSchedule.TreasuryShare | nearlend-nft-contract/src/lib.rs:458-460 | The treasury's cut is `price * fee / 10 000` rounded down, and it is at most the price when the fee is at most 10 000 |
| FeeSchedule.BuyProductFitsU128 | nearlend-nft-contract/src/lib.rs:36 | Below MAX_PRICE and 10 000 bp, `price * fee` fits in a u128, so the multiplication never aborts |
| FeeSchedule.SaleTransfers | nearlend-nft-contract/src/lib.rs:458-466 | The transfers sum to the price; the creator is paid first; the treasury is paid its cut exactly when the cut is not zero |
| Marketplace.Contract.NftMint | nearlend-nft-contract/src/lib.rs:480-503 | Only the series' creator may mint; the next edition goes to the receiver as in MintSeries; failures change nothing |
| Marketplace.Contract.MintSeries | nearlend-nft-contract/src/lib.rs:577-643 | Fails on a missing series, a closed series or a full series; otherwise exactly the next edition is minted to the receiver: the series gains it, and the owner map, metadata and index record it; the new id has no approvals; the invariant is kept |
| SeriesStore.MintStep | nearlend-nft-contract/src/lib.rs:586-600 | Succeeds exactly on an open series below its cap (no cap means u64::MAX); the series closes when the new count reaches the cap |
| SeriesStore.MaxCopies | nearlend-nft-contract/src/lib.rs:592 | A series' cap is its `copies`, or u64::MAX when it has none |
| SeriesStore.NextEditionFresh | nearlend-nft-contract/src/lib.rs:599-600 | The id of edition n + 1 is not already among a series' n tokens |
| SeriesStore.AddEditionKeepsEditions | nearlend-nft-contract/src/lib.rs:599-600 | Adding edition n + 1 grows the set by one and keeps it exactly editions 1..n + 1 |
| SeriesStore.MintStepKeepsSeries | nearlend-nft-contract/src/lib.rs:586-602 | A successful mint step keeps the series valid, adds exactly edition n + 1 and changes nothing else |
| Registry.NextEditionUnowned | nearlend-nft-contract/src/lib.rs:599-625 | On a valid state the next edition's id has no owner yet, so a mint never overwrites a token |
| Registry.MintKeepsRegistry | nearlend-nft-contract/src/lib.rs:577-643 | Recording the next edition in the series, the owner map, the metadata and the index keeps both the store and the registry valid |
| Registry.AddTokenKeepsRegistry | nearlend-nft-contract/src/lib.rs:624-640 | Adding an unowned token to its series, owner map, metadata and index keeps the registry valid |
| Registry.UpdateSeriesKeepsRegistry | nearlend-nft-contract/src/lib.rs:670-671 | Replacing a series by a record that keeps its tokens keeps the registry valid |
| Registry.OwnedTokenSeries | nearlend-nft-contract/src/lib.rs:926-932 | An owned token's id splits into the id of an existing series that lists it and an edition number |
| SeriesStore.SingleCopySeries | nearlend-nft-contract/src/lib.rs:591-597 | A one-copy series mints edition 1 and then refuses with NotMintable |
| Marketplace.Contract.NftMintAndApprove | nearlend-nft-contract/src/lib.rs:506-575 | Only the creator may call it; the next edition is minted to the creator, the account is approved for it with approval id 1 and the counter becomes 2; with a message the returned notice carries that id; failures change nothing |
| Marketplace.Contract.Approve | nearlend-nft-contract/src/lib.rs:528-552 | The account gets the token's next approval id (1 if none), the counter moves to that id + 1, and the invariant is kept |
| Registry.ApproveKeepsRegistry | nearlend-nft-contract/src/lib.rs:542-552 | Adding an approval and advancing the counter of an owned token keeps the registry valid |
| Marketplace.Contract.ReplaceSeries | nearlend-nft-contract/src/lib.rs:670-671 | Writes back a series record that keeps the minted tokens: only that entry of the store changes, and the invariant is kept (also used for lib.rs:720-721 and 771-772) |
| Marketplace.ApprovalsOf | nearlend-nft-contract/src/lib.rs:531-533 | A token's approvals are its stored map, or empty when it has none |
| Marketplace.NextApprovalId | nearlend-nft-contract/src/lib.rs:535-541 | A token's next approval id is its stored counter, or 1 when it has none |
| Marketplace.Contract.NftSetSeriesNonMintable | nearlend-nft-contract/src/lib.rs:646-682 | One yocto, an existing series, its creator, the series open and uncapped; then only the mintable flag goes off; failures change nothing |
| SeriesStore.CloseStep | nearlend-nft-contract/src/lib.rs:659-669 | Succeeds exactly on an open series without a cap, and only clears the mintable flag |
| Marketplace.Contract.NftDecreaseSeriesCopies | nearlend-nft-contract/src/lib.rs:685-735 | One yocto, an existing series, its creator; the cap drops by the amount but never below the minted count; reaching it closes the series; returns the new cap; failures change nothing |
| SeriesStore.DecreaseCopiesStep | nearlend-nft-contract/src/lib.rs:702-718 | A missing cap aborts (the source's `unwrap`); succeeds exactly when the minted count plus the decrease fits under the cap; the new cap is the old one less the decrease; the series stays open exactly when it was open and the cap is still above the count |
| SeriesStore.DecreaseCopiesExample | nearlend-nft-contract/src/lib.rs:1566-1623 | With 2 minted of 5, decreasing by 3 closes the series at 2 copies, and decreasing by 4 is refused |
| Marketplace.Contract.NftSetSeriesPrice | nearlend-nft-contract/src/lib.rs:738-793 | One yocto, an existing open series, its creator, and a price below MAX_PRICE; the price is set or cleared and the series' fee snapshot is retaken at the resolved fee; failures change nothing |
| SeriesStore.SetPriceStep | nearlend-nft-contract/src/lib.rs:755-769 | Succeeds exactly on an open series with no price or a price below MAX_PRICE, and changes only the price |
| SeriesStore.ApplyOpKeepsSeries | nearlend-nft-contract/src/lib.rs:577-793 | Any successful series step keeps the series valid and never removes a minted token |
| SeriesStore.ClosedStaysClosed | nearlend-nft-contract/src/lib.rs:586-589 | Once a series is closed, no sequence of series steps reopens it or mints into it |
| SeriesStore.OpsKeepSeries | nearlend-nft-contract/src/lib.rs:577-793 | Every sequence of series steps keeps the series valid and its token set only grows |
| Marketplace.Contract.NftBurn | nearlend-nft-contract/src/lib.rs:796-823 | One yocto, an existing token and its owner as caller; then the owner map, metadata, approvals, approval counter and index entry lose the token, the series keeps it, and the invariant holds; failures change nothing |
| Registry.BurnKeepsRegistry | nearlend-nft-contract/src/lib.rs:802-820 | Removing a token from the owner map, metadata, approvals, counters and its owner's index keeps the registry valid |
| Marketplace.Contract.NftToken | nearlend-nft-contract/src/lib.rs:917-960 | The view returns None exactly for an unowned id, and otherwise the token joined with its series |
| Projection.NftToken | nearlend-nft-contract/src/lib.rs:917-960 | None exactly for an unowned id; an owned token keeps its owner and id, has its approvals (empty if none), and its metadata is the projection of the stored metadata onto the series' metadata |
| Marketplace.Contract.OwnedTokenView | nearlend-nft-contract/src/lib.rs:917-960 | On a valid state the view of an owned token never aborts, reports its owner, and titles it "<series title> #<edition>" |
| Projection.NftTokenOfMinted | nearlend-nft-contract/src/lib.rs:926-947 | For a minted `<series>:<edition>` id the view finds the series and titles the token with the series title and the edition |
| Projection.ProjectMetadata | nearlend-nft-contract/src/lib.rs:942-952 | The title becomes "<series title> #<edition>"; reference, media, copies and extra come from the series; every other field keeps the token's own value |
| Projection.MintedTokenMetadata | nearlend-nft-contract/src/lib.rs:605-618 | A freshly minted token's metadata carries only its issue time as a decimal string |
| TokenIds.MakeTokenId | nearlend-nft-contract/src/lib.rs:599 | For a series id without `:`, splitting the new id at its first `:` gives back the series id and the decimal edition |
| TokenIds.SeriesPart | nearlend-nft-contract/src/lib.rs:926-927 | The series part is the longest prefix of the token id without `:` |
| TokenIds.EditionPart | nearlend-nft-contract/src/lib.rs:946 | There is an edition part exactly when the id contains `:`; it has no `:` and follows the series part and its `:` in the id |
| TokenIds.NatToString | nearlend-nft-contract/src/lib.rs:336 | The decimal string of a number is non-empty, all digits, and has no `:` |
| TokenIds.TokenIdRoundTrip | nearlend-nft-contract/src/lib.rs:599 | Splitting `"<series>:<n>"` at the first `:` gives back the series id and the decimal edition n |
| TokenIds.MakeTokenIdInjective | nearlend-nft-contract/src/lib.rs:599 | Distinct series or editions give distinct token ids |
| TokenIds.DecimalRoundTrip | nearlend-nft-contract/src/lib.rs:336 | Parsing the decimal string of a number gives the number back |
| TokenIds.NatToStringInjective | nearlend-nft-contract/src/lib.rs:336 | Different numbers give different decimal ids |
| TokenIds.SplitJoin | nearlend-nft-contract/src/lib.rs:926 | Splitting a `:`-free prefix joined by `:` to a suffix gives back both parts |
| TokenIds.JoinSplit | nearlend-nft-contract/src/lib.rs:926-946 | A string is its part before the first `:`, the `:` and the rest; without a `:` it is its own first part |
| Marketplace.Contract.NftPayout | nearlend-nft-contract/src/lib.rs:1149-1185 | Fails for an unowned token and for more royalty holders than `max_len_payout`; otherwise succeeds exactly when the u32 and u128 arithmetic fits, and returns the payout spec, whose sum is at most the balance |
| Royalty.NftPayoutOf | nearlend-nft-contract/src/lib.rs:1159-1184 | The length check first; then success exactly when the arithmetic fits; the result is the payout spec (holders other than the owner get their bp share, the owner the rest) and sums to at most the balance |
| Royalty.PayRoyaltyHolders | nearlend-nft-contract/src/lib.rs:1171-1179 | The loop pays every holder other than the owner its scaled share and sums their basis points; it fails exactly on a u32 or u128 overflow |
| Royalty.RoyaltyToPayout | nearlend-nft-contract/src/lib.rs:1268-1270 | The amount is `bp * balance / 10 000` rounded down |
| Royalty.PayoutBounded | nearlend-nft-contract/src/lib.rs:1166-1184 | When the holders' basis points are at most 10 000, the payout sums to at most the balance |
| Royalty.ScaledSumBound | nearlend-nft-contract/src/lib.rs:1171-1179 | The rounded-down shares sum to at most the scaled total of their basis points |
| Royalty.PayoutMayLoseRounding | nearlend-nft-contract/src/lib.rs:1268-1270 | A payout can sum to less than the balance: a 1 bp royalty on a balance of 1 pays nothing to the holder or the owner |
| Royalty.PayoutExample | nearlend-nft-contract/src/lib.rs:1779-1821 | A 1000 bp royalty on a balance of 10^24 pays the holder 10^23 and the owner 9 * 10^23, as the transfer-payout test expects |
| Royalty.SharesWithinRoyalty | nearlend-nft-contract/src/lib.rs:1225-1235 | Leaving out the previous owner never increases the holders' basis points |
| Marketplace.Contract.RoyaltyOfBounded | nearlend-nft-contract/src/lib.rs:364-372 | On a valid state every owned token's royalty table is within 9000 bp, so the payout's "Total payout overflow" check never fires |
| Marketplace.Contract.NftTransferPayout | nearlend-nft-contract/src/lib.rs:1188-1261 | One yocto, an existing token, a transfer the NEP-171 rules allow; with a balance, a `max_len_payout` that admits the royalty table and arithmetic that fits; then the token moves to the receiver, loses its approvals and the payout to the previous owner is returned; PayoutOverflow never happens; failures change nothing |
| Royalty.TransferPayoutOf | nearlend-nft-contract/src/lib.rs:1207-1244 | A missing `max_len_payout` aborts, then the length check; success exactly when the arithmetic fits; PayoutOverflow only when the royalty table exceeds 10 000 bp; the result is the payout spec, summing to at most the balance |
| Marketplace.Contract.ApplyTransfer | nearlend-nft-contract/src/lib.rs:1201-1202 | The token changes owner, moves between index entries and loses its approvals, and the invariant is kept |
| Registry.MoveToken | nearlend-nft-contract/src/lib.rs:1201-1202 | After the move the receiver's index entry is its old entry plus the token, the sender's (when different) is its old entry minus the token, and every other account's entry is unchanged |
| Registry.TransferAllowed | nearlend-nft-contract/src/lib.rs:1200-1202 | The NEP-171 guard of the library transfer: never to the current owner; the owner may always send to anyone else; without approvals only the owner may send |
| Registry.OnlyNewOwnerMayTransfer | nearlend-nft-contract/src/lib.rs:1200-1202 | Once a transfer has cleared the token's approvals, only the new owner may transfer it, and only to someone else |
| Registry.TransferKeepsRegistry | nearlend-nft-contract/src/lib.rs:1201-1202 | Changing an owned token's owner, moving its index entry and dropping its approvals keeps the registry valid |

## Left out

- `new_default_meta`, `migrate`, `set_treasury`, `get_owner`, `get_transaction_fee` and the
  contract metadata (`nft_metadata`, `NFTContractMetadata::assert_valid`): configuration and
  views that hold no logic beyond storing or returning a field.
- The paginated views (`nft_get_series`, `nft_tokens`, `nft_tokens_for_owner`,
  `nft_tokens_by_series`, `nft_supply_*`, `nft_total_supply`, `nft_get_series_single`,
  `nft_get_series_price`, `nft_get_series_format`): read-only listings of the stored maps.
- `nft_transfer`, `nft_transfer_call`, `nft_transfer_unsafe` and `nft_resolve_transfer`: they
  delegate to the NEAR contract-standards library, which is not part of this model. Only the
  library's transfer guard and state change that `nft_transfer_payout` uses are modelled
  (`Registry.TransferAllowed`, `Marketplace.Contract.ApplyTransfer`).
- Promises, NEAR transfers, gas and cross-contract calls: a sale returns the transfers it would
  make (`FeeSchedule.SaleTransfers`), and `nft_mint_and_approve` returns the `nft_on_approve`
  notice it would send.
- `refund_deposit` and storage staking: storage usage is not modelled.
- Event and log output (`env::log`, `NearEvent`).
- `is_valid_account_id` and the `ValidAccountId` parsing of the NEAR SDK: account validity is
  the parameter `validAccountId`, and receiver ids are taken as already valid.
- Builds without Rust's overflow checks: the model assumes they are on, and no build file in the
  repository states it. A build without them would wrap instead of aborting in
  `SeriesStore.DecreaseCopiesStep` (`copies - decrease`, lib.rs:706), `Royalty.SumRoyalty` (the u32
  sum, lib.rs:356), `Royalty.PayRoyaltyHolders` (lib.rs:1176-1177), `Royalty.NftPayoutOf`
  (`10_000 - total`, lib.rs:1182) and `Royalty.TransferPayoutOf` (lib.rs:1231-1239); such a build
  is not modelled.
- Registry.MoveToken: when the sender's last token leaves, the model keeps an empty index entry
  for the sender, where the contract-standards library removes it. No view of the contract can
  tell the two apart: an owner's supply is 0 and its token list empty either way.
- HashMap iteration order: the royalty loops visit keys in an unspecified order, and the model
  picks them with `:|`. The results do not depend on the order.
- Marketplace.Contract.NftTransferPayout: the source transfers the token before it computes the
  payout, and a later panic reverts the transfer. The model makes every check first, so the
  failing cases are the same and leave the same state.
- Marketplace.Contract.NftPayout: the source's "no type" panic, for an owned token whose series
  is missing, is proved unreachable under `Valid()` and has no error case of its own.
- Marketplace.Contract.NftBuy: the deposit beyond the price is refunded by `refund_deposit`,
  which the model omits; the sale records the price only.
- Marketplace.Contract.constructor: requires the initial fee to be below 10 000, a check the
  source does not make (see Findings). `FeeSchedule.InitialFee` models the unchecked version.

## Findings

| source | as written | input that shows it | evidently intended | confidence | as-written member | corrected member |
|---|---|---|---|---|---|---|
| nearlend-nft-contract/src/lib.rs:176-204 | `new` stores any `u16` as the current fee, while `set_transaction_fee` rejects fees of 10 000 or more | `current_fee` = 10 001, a series created under it, then `nft_buy` at a price of 10 000 yocto: the treasury's cut is 10 001 and `price - for_treasury` underflows. Every sale at a price of at least 10 000 yocto aborts (below that the cut equals the price and the creator gets 0). The series' fee snapshot of 10 001 outlives any later fee change by the owner, so its sales keep aborting until its creator re-prices it with `nft_set_series_price` | the initial fee obeys the same bound as `set_transaction_fee` (below 10 000) | not executed | FeeSchedule.UncheckedInitialFeeOverdrawsSale | Marketplace.Contract.constructor |
