/**
 * Lazy minting stores next to nothing per token; `nft_token` (lib.rs:917-960) joins the
 * stored token with its series at read time: the series id and edition come from splitting
 * the token id, and title, reference, media, copies and extra come from the series.
 */
module Projection {
  import opened Wrappers
  import opened Types
  import opened TokenIds

  /** The metadata `_nft_mint_series` stores for a new token: only `issued_at` is set (lib.rs:605-618). */
  function MintedTokenMetadata(blockTimestamp: nat): (m: TokenMetadata)
    ensures m.issuedAt == Some(NatToString(blockTimestamp))
    ensures m.title.None? && m.media.None? && m.copies.None? && m.extra.None? && m.reference.None?
    ensures m.description.None? && m.mediaHash.None? && m.expiresAt.None? && m.startsAt.None?
    ensures m.updatedAt.None? && m.referenceHash.None?
  {
    TokenMetadata(None, None, None, None, None, Some(NatToString(blockTimestamp)), None, None, None, None, None, None)
  }

  /** The token's metadata as the view shows it: series fields override the stored ones. */
  function ProjectMetadata(stored: TokenMetadata, series: TokenMetadata, seriesTitle: string, edition: string): (m: TokenMetadata)
    ensures m.title == Some(seriesTitle + TITLE_DELIMITER + edition)
    ensures m.reference == series.reference && m.media == series.media
    ensures m.copies == series.copies && m.extra == series.extra
    ensures m.description == stored.description && m.mediaHash == stored.mediaHash
    ensures m.issuedAt == stored.issuedAt && m.expiresAt == stored.expiresAt
    ensures m.startsAt == stored.startsAt && m.updatedAt == stored.updatedAt
    ensures m.referenceHash == stored.referenceHash
  {
    stored.(title := Some(seriesTitle + TITLE_DELIMITER + edition),
            reference := series.reference,
            media := series.media,
            copies := series.copies,
            extra := series.extra)
  }

  /**
   * `nft_token`: None for a token without an owner; otherwise the token joined with its
   * series. Each `unwrap` of the source that can fail is an error here.
   */
  function NftToken(
    ownerById: map<TokenId, AccountId>,
    approvalsById: map<TokenId, map<AccountId, nat>>,
    tokenMetadataById: map<TokenId, TokenMetadata>,
    tokenSeriesById: map<TokenSeriesId, TokenSeries>,
    tokenId: TokenId): (r: Result<Option<Token>, Error>)
    ensures r == Success(None) <==> tokenId !in ownerById
    ensures r.Success? && r.value.Some? ==>
      && r.value.value.tokenId == tokenId
      && r.value.value.ownerId == ownerById[tokenId]
      && r.value.value.approvedAccountIds == Some(if tokenId in approvalsById then approvalsById[tokenId] else map[])
      && SeriesPart(tokenId) in tokenSeriesById && tokenId in tokenMetadataById
      && tokenSeriesById[SeriesPart(tokenId)].metadata.title.Some? && EditionPart(tokenId).Some?
      && r.value.value.metadata == Some(ProjectMetadata(tokenMetadataById[tokenId], tokenSeriesById[SeriesPart(tokenId)].metadata,
           tokenSeriesById[SeriesPart(tokenId)].metadata.title.value, EditionPart(tokenId).value))
  {
    if tokenId !in ownerById then Success(None)
    else
      var approved := if tokenId in approvalsById then approvalsById[tokenId] else map[];
      var seriesId := SeriesPart(tokenId);
      if seriesId !in tokenSeriesById then Failure(SeriesNotFound)
      else if tokenId !in tokenMetadataById then Failure(TokenMetadataNotFound)
      else
        var series := tokenSeriesById[seriesId].metadata;
        if series.title.None? then Failure(SeriesTitleMissing)
        else if EditionPart(tokenId).None? then Failure(MalformedTokenId)
        else
          var metadata := ProjectMetadata(tokenMetadataById[tokenId], series, series.title.value, EditionPart(tokenId).value);
          Success(Some(Token(tokenId, ownerById[tokenId], Some(metadata), Some(approved))))
  }

  /**
   * For an owned token minted as edition `edition` of a titled series, the view recovers the
   * series and the edition from the id and titles the token "<series title> #<edition>".
   */
  lemma NftTokenOfMinted(
    ownerById: map<TokenId, AccountId>,
    approvalsById: map<TokenId, map<AccountId, nat>>,
    tokenMetadataById: map<TokenId, TokenMetadata>,
    tokenSeriesById: map<TokenSeriesId, TokenSeries>,
    seriesId: TokenSeriesId, edition: nat)
    requires TOKEN_DELIMITER !in seriesId
    requires MakeTokenId(seriesId, edition) in ownerById && MakeTokenId(seriesId, edition) in tokenMetadataById
    requires seriesId in tokenSeriesById && tokenSeriesById[seriesId].metadata.title.Some?
    ensures var tokenId := MakeTokenId(seriesId, edition);
      var series := tokenSeriesById[seriesId].metadata;
      var r := NftToken(ownerById, approvalsById, tokenMetadataById, tokenSeriesById, tokenId);
      && r.Success? && r.value.Some?
      && r.value.value.metadata == Some(ProjectMetadata(tokenMetadataById[tokenId], series, series.title.value, NatToString(edition)))
      && r.value.value.metadata.value.title == Some(series.title.value + " #" + NatToString(edition))
  {
    TokenIdRoundTrip(seriesId, edition);
  }
}
