/**
 * The series store: which series records are well formed, how a new series gets its id
 * (lib.rs:336-341), and the per-series transitions behind minting (lib.rs:586-600), closing
 * (lib.rs:653-669, 696-718) and pricing (lib.rs:749-769).
 */
module SeriesStore {
  import opened Wrappers
  import opened Types
  import opened TokenIds
  import opened Royalty

  /** `metadata.copies.unwrap_or(u64::MAX)`: the cap on the number of editions. */
  function MaxCopies(s: TokenSeries): (cap: nat)
    ensures s.metadata.copies.Some? ==> cap == s.metadata.copies.value
    ensures s.metadata.copies.None? ==> cap == U64_MAX
  {
    s.metadata.copies.GetOr(U64_MAX)
  }

  /** Each token of a series of n tokens is "<series>:<edition>" for an edition between 1 and n. */
  ghost predicate EditionsValid(seriesId: TokenSeriesId, tokens: set<TokenId>) {
    forall t | t in tokens ::
      EditionOf(t).Some? && 1 <= EditionOf(t).value <= |tokens| && t == MakeTokenId(seriesId, EditionOf(t).value)
  }

  /** What creation establishes and every later call keeps: titled, bounded royalty and price, cap respected. */
  ghost predicate SeriesValid(seriesId: TokenSeriesId, s: TokenSeries) {
    && EditionsValid(seriesId, s.tokens)
    && s.metadata.title.Some?
    && |s.royalty| <= MAX_ROYALTY_ACCOUNTS
    && SumValues(s.royalty) <= MAX_ROYALTY_TOTAL
    && (s.price.Some? ==> s.price.value < MAX_PRICE)
    && (s.metadata.copies.Some? ==> |s.tokens| <= s.metadata.copies.value)
  }

  /** A stored series: its id is one of the decimals 1..n for a store of n series, and its record is well formed. */
  ghost predicate EntryValid(series: map<TokenSeriesId, TokenSeries>, id: TokenSeriesId) {
    && id in series
    && TOKEN_DELIMITER !in id
    && DecimalValue(id).Some? && 1 <= DecimalValue(id).value <= |series|
    && SeriesValid(id, series[id])
  }

  /** Every stored series is valid; the trigger keeps the facts about one series out of sight until asked for. */
  ghost predicate StoreValid(series: map<TokenSeriesId, TokenSeries>) {
    forall id {:trigger EntryValid(series, id)} | id in series :: EntryValid(series, id)
  }

  /** `format!("{}", self.token_series_by_id.len() + 1)` */
  function NextSeriesId(series: map<TokenSeriesId, TokenSeries>): TokenSeriesId {
    NatToString(|series| + 1)
  }

  /** The next id is never taken, so the duplicate check of creation never fires. */
  lemma NextSeriesIdFresh(series: map<TokenSeriesId, TokenSeries>)
    requires StoreValid(series)
    ensures NextSeriesId(series) !in series
  {
    DecimalRoundTrip(|series| + 1);
    forall id | id in series ensures id != NextSeriesId(series) {
      assert EntryValid(series, id);
    }
  }

  /** Adding a valid series under the next id keeps the store valid and grows it by one. */
  lemma AddSeriesKeepsStore(series: map<TokenSeriesId, TokenSeries>, s: TokenSeries)
    requires StoreValid(series) && SeriesValid(NextSeriesId(series), s)
    ensures NextSeriesId(series) !in series
    ensures |series[NextSeriesId(series) := s]| == |series| + 1
    ensures StoreValid(series[NextSeriesId(series) := s])
  {
    var newId := NextSeriesId(series);
    NextSeriesIdFresh(series);
    DecimalRoundTrip(|series| + 1);
    var series' := series[newId := s];
    forall id | id in series' ensures EntryValid(series', id) {
      if id != newId {
        assert EntryValid(series, id);
      }
    }
  }

  /** Replacing a series by a valid record under the same id keeps the store valid. */
  lemma UpdateSeriesKeepsStore(series: map<TokenSeriesId, TokenSeries>, id: TokenSeriesId, s: TokenSeries)
    requires StoreValid(series) && id in series && SeriesValid(id, s)
    ensures StoreValid(series[id := s])
  {
    var series' := series[id := s];
    assert |series'| == |series|;
    forall k | k in series' ensures EntryValid(series', k) {
      assert EntryValid(series, k);
    }
  }

  /** The record `nft_create_series` stores: no tokens yet, open for minting. */
  function NewSeries(creatorId: AccountId, metadata: TokenMetadata, price: Option<nat>, royalty: map<AccountId, nat>): (s: TokenSeries)
    ensures s.tokens == {} && s.isMintable && s.creatorId == creatorId
  {
    TokenSeries(metadata, creatorId, {}, price, true, royalty)
  }

  /** The series half of `_nft_mint_series`: add edition n + 1, and close the series on its last edition. */
  function MintStep(seriesId: TokenSeriesId, s: TokenSeries): (r: Result<TokenSeries, Error>)
    ensures r.Success? <==> s.isMintable && |s.tokens| < MaxCopies(s)
    ensures !s.isMintable ==> r == Failure(NotMintable)
    ensures s.isMintable && |s.tokens| >= MaxCopies(s) ==> r == Failure(SupplyMaxed)
  {
    if !s.isMintable then Failure(NotMintable)
    else
      var numTokens := |s.tokens|;
      var maxCopies := MaxCopies(s);
      if numTokens >= maxCopies then Failure(SupplyMaxed)
      else
        var tokenId := MakeTokenId(seriesId, numTokens + 1);
        Success(s.(tokens := s.tokens + {tokenId}, isMintable := !(numTokens + 1 >= maxCopies)))
  }

  /** Edition n + 1 of a series with editions 1..n is a new token id. */
  lemma NextEditionFresh(seriesId: TokenSeriesId, tokens: set<TokenId>)
    requires TOKEN_DELIMITER !in seriesId && EditionsValid(seriesId, tokens)
    ensures MakeTokenId(seriesId, |tokens| + 1) !in tokens
  {
    TokenIdRoundTrip(seriesId, |tokens| + 1);
  }

  /** Adding edition n + 1 to editions 1..n gives editions 1..n+1. */
  lemma AddEditionKeepsEditions(seriesId: TokenSeriesId, tokens: set<TokenId>)
    requires TOKEN_DELIMITER !in seriesId && EditionsValid(seriesId, tokens)
    ensures |tokens + {MakeTokenId(seriesId, |tokens| + 1)}| == |tokens| + 1
    ensures EditionsValid(seriesId, tokens + {MakeTokenId(seriesId, |tokens| + 1)})
  {
    var n := |tokens|;
    var tokenId := MakeTokenId(seriesId, n + 1);
    NextEditionFresh(seriesId, tokens);
    TokenIdRoundTrip(seriesId, n + 1);
    var tokens' := tokens + {tokenId};
    assert |tokens'| == n + 1;
  }

  /**
   * A mint adds exactly the new edition `"<series>:<n+1>"`, keeps the editions dense, and leaves
   * the series open iff another edition fits under the cap.
   */
  lemma MintStepKeepsSeries(seriesId: TokenSeriesId, s: TokenSeries)
    requires TOKEN_DELIMITER !in seriesId && SeriesValid(seriesId, s) && MintStep(seriesId, s).Success?
    ensures var s' := MintStep(seriesId, s).value;
      var tokenId := MakeTokenId(seriesId, |s.tokens| + 1);
      && tokenId !in s.tokens
      && s'.tokens == s.tokens + {tokenId}
      && |s'.tokens| == |s.tokens| + 1
      && (s'.isMintable <==> |s.tokens| + 1 < MaxCopies(s))
      && s' == s.(tokens := s'.tokens, isMintable := s'.isMintable)
      && SeriesValid(seriesId, s')
  {
    NextEditionFresh(seriesId, s.tokens);
    AddEditionKeepsEditions(seriesId, s.tokens);
  }

  /** `nft_set_series_non_mintable` after its creator check: only an open, uncapped series closes. */
  function CloseStep(s: TokenSeries): (r: Result<TokenSeries, Error>)
    ensures r.Success? <==> s.isMintable && s.metadata.copies.None?
    ensures r.Success? ==> r.value == s.(isMintable := false)
  {
    if !s.isMintable then Failure(AlreadyNonMintable)
    else if s.metadata.copies.Some? then Failure(CopiesNotNull)
    else Success(s.(isMintable := false))
  }

  /**
   * `nft_decrease_series_copies` after its creator check: the cap must exist (`unwrap`), the
   * u64 subtraction must not underflow, and the new cap must not fall below the minted count;
   * reaching it exactly closes the series. Mintability itself is not checked.
   */
  function DecreaseCopiesStep(s: TokenSeries, decrease: nat): (r: Result<TokenSeries, Error>)
    ensures s.metadata.copies.None? ==> r == Failure(CopiesNull)
    ensures r.Success? <==> s.metadata.copies.Some? && |s.tokens| + decrease <= s.metadata.copies.value
    ensures r.Success? ==> r.value.metadata.copies == Some(s.metadata.copies.value - decrease)
    ensures r.Success? ==> (r.value.isMintable <==> s.isMintable && s.metadata.copies.value - decrease != |s.tokens|)
  {
    if s.metadata.copies.None? then Failure(CopiesNull)
    else
      var copies := s.metadata.copies.value;
      if decrease > copies then Failure(ArithmeticOverflow)
      else if copies - decrease < |s.tokens| then Failure(BelowMinted)
      else
        var isMintable := if copies - decrease == |s.tokens| then false else s.isMintable;
        Success(s.(metadata := s.metadata.(copies := Some(copies - decrease)), isMintable := isMintable))
  }

  /** `nft_set_series_price` after its creator check: only while open, and below MAX_PRICE. */
  function SetPriceStep(s: TokenSeries, price: Option<nat>): (r: Result<TokenSeries, Error>)
    ensures r.Success? <==> s.isMintable && (price.Some? ==> price.value < MAX_PRICE)
    ensures !s.isMintable ==> r == Failure(NotMintable)
    ensures r.Success? ==> r.value == s.(price := price)
  {
    if !s.isMintable then Failure(NotMintable)
    else if price.Some? && price.value >= MAX_PRICE then Failure(PriceTooHigh)
    else Success(s.(price := price))
  }

  /** The operations that change a stored series. */
  datatype SeriesOp = Mint | Close | DecreaseCopies(decrease: nat) | SetPrice(price: Option<nat>)

  function ApplyOp(seriesId: TokenSeriesId, s: TokenSeries, op: SeriesOp): Result<TokenSeries, Error> {
    match op
    case Mint => MintStep(seriesId, s)
    case Close => CloseStep(s)
    case DecreaseCopies(d) => DecreaseCopiesStep(s, d)
    case SetPrice(p) => SetPriceStep(s, p)
  }

  /** A run of calls on one series; a call that aborts leaves the series as it was. */
  function ApplyOps(seriesId: TokenSeriesId, s: TokenSeries, ops: seq<SeriesOp>): TokenSeries
    decreases |ops|
  {
    if ops == [] then s
    else
      var next := ApplyOp(seriesId, s, ops[0]);
      ApplyOps(seriesId, if next.Success? then next.value else s, ops[1..])
  }

  /**
   * Every successful operation keeps a series well formed and never reopens a closed one;
   * it never drops a minted token, and the creator and royalty table never change.
   */
  lemma ApplyOpKeepsSeries(seriesId: TokenSeriesId, s: TokenSeries, op: SeriesOp)
    requires TOKEN_DELIMITER !in seriesId && SeriesValid(seriesId, s) && ApplyOp(seriesId, s, op).Success?
    ensures var s' := ApplyOp(seriesId, s, op).value;
      && SeriesValid(seriesId, s')
      && (!s.isMintable ==> !s'.isMintable)
      && s.tokens <= s'.tokens
      && s'.creatorId == s.creatorId && s'.royalty == s.royalty
      && s'.metadata.title == s.metadata.title
  {
    if op.Mint? {
      MintStepKeepsSeries(seriesId, s);
    }
  }

  /** Closing is one way: once a series is not mintable, no sequence of calls reopens it or mints from it. */
  lemma {:induction false} ClosedStaysClosed(seriesId: TokenSeriesId, s: TokenSeries, ops: seq<SeriesOp>)
    requires TOKEN_DELIMITER !in seriesId && SeriesValid(seriesId, s) && !s.isMintable
    ensures !ApplyOps(seriesId, s, ops).isMintable
    ensures ApplyOps(seriesId, s, ops).tokens == s.tokens
    decreases |ops|
  {
    if ops != [] {
      var next := ApplyOp(seriesId, s, ops[0]);
      var s' := if next.Success? then next.value else s;
      if next.Success? {
        ApplyOpKeepsSeries(seriesId, s, ops[0]);
      }
      ClosedStaysClosed(seriesId, s', ops[1..]);
    }
  }

  /**
   * Over any run of calls the series stays well formed, minted ids are never dropped, and the
   * number of editions never exceeds a cap that is set.
   */
  lemma {:induction false} OpsKeepSeries(seriesId: TokenSeriesId, s: TokenSeries, ops: seq<SeriesOp>)
    requires TOKEN_DELIMITER !in seriesId && SeriesValid(seriesId, s)
    ensures var s' := ApplyOps(seriesId, s, ops);
      SeriesValid(seriesId, s') && s.tokens <= s'.tokens
      && (s'.metadata.copies.Some? ==> |s'.tokens| <= s'.metadata.copies.value)
    decreases |ops|
  {
    if ops != [] {
      var next := ApplyOp(seriesId, s, ops[0]);
      if next.Success? {
        ApplyOpKeepsSeries(seriesId, s, ops[0]);
        OpsKeepSeries(seriesId, next.value, ops[1..]);
      } else {
        OpsKeepSeries(seriesId, s, ops[1..]);
      }
    }
  }

  /** A series with one copy: the first mint closes it, the second fails "not mintable". */
  lemma SingleCopySeries(seriesId: TokenSeriesId, s: TokenSeries)
    requires s.isMintable && s.tokens == {} && s.metadata.copies == Some(1)
    ensures MintStep(seriesId, s).Success?
    ensures MintStep(seriesId, s).value.tokens == {MakeTokenId(seriesId, 1)}
    ensures MintStep(seriesId, MintStep(seriesId, s).value) == Failure(NotMintable)
  {
  }

  /** Five copies, two minted: decreasing by three closes the series at two; by four is refused. */
  lemma DecreaseCopiesExample(s: TokenSeries)
    requires s.isMintable && |s.tokens| == 2 && s.metadata.copies == Some(5)
    ensures DecreaseCopiesStep(s, 3).Success?
    ensures DecreaseCopiesStep(s, 3).value.metadata.copies == Some(2)
    ensures !DecreaseCopiesStep(s, 3).value.isMintable
    ensures DecreaseCopiesStep(s, 4) == Failure(BelowMinted)
  {
  }
}
