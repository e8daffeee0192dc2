/**
 * The token registry the contract keeps through the NEP-171 library structure: owner by token,
 * stored metadata by token, the per-owner index, approvals and the next approval id, and how
 * minting (lib.rs:620-640), burning (lib.rs:795-823) and a transfer keep them consistent
 * with the series store.
 */
module Registry {
  import opened Wrappers
  import opened Types
  import opened TokenIds
  import opened SeriesStore

  /** `tokens_per_owner.get(owner).unwrap_or_else(new set)` */
  function TokensOf(tokensPerOwner: map<AccountId, set<TokenId>>, accountId: AccountId): set<TokenId> {
    if accountId in tokensPerOwner then tokensPerOwner[accountId] else {}
  }

  /** An owned token is listed by some series and by its owner's index entry. */
  ghost predicate TokenRecorded(
    series: map<TokenSeriesId, TokenSeries>,
    ownerById: map<TokenId, AccountId>,
    tokensPerOwner: map<AccountId, set<TokenId>>,
    tokenId: TokenId)
  {
    && tokenId in ownerById
    && (exists id :: id in series && tokenId in series[id].tokens)
    && tokenId in TokensOf(tokensPerOwner, ownerById[tokenId])
  }

  /** An index entry lists only tokens its account owns. */
  ghost predicate IndexEntryValid(
    ownerById: map<TokenId, AccountId>,
    tokensPerOwner: map<AccountId, set<TokenId>>,
    accountId: AccountId)
  {
    && accountId in tokensPerOwner
    && (forall t | t in tokensPerOwner[accountId] :: t in ownerById && ownerById[t] == accountId)
  }

  /**
   * Every owned token is a minted edition of an existing series and has stored metadata;
   * approvals exist only for owned tokens; the per-owner index lists exactly the owned tokens.
   */
  ghost predicate RegistryValid(
    series: map<TokenSeriesId, TokenSeries>,
    ownerById: map<TokenId, AccountId>,
    tokenMetadataById: map<TokenId, TokenMetadata>,
    tokensPerOwner: map<AccountId, set<TokenId>>,
    approvalsById: map<TokenId, map<AccountId, nat>>,
    nextApprovalIdById: map<TokenId, nat>)
  {
    && (forall t {:trigger TokenRecorded(series, ownerById, tokensPerOwner, t)} | t in ownerById ::
          TokenRecorded(series, ownerById, tokensPerOwner, t))
    && tokenMetadataById.Keys == ownerById.Keys
    && approvalsById.Keys <= ownerById.Keys
    && nextApprovalIdById.Keys <= ownerById.Keys
    && (forall a {:trigger IndexEntryValid(ownerById, tokensPerOwner, a)} | a in tokensPerOwner ::
          IndexEntryValid(ownerById, tokensPerOwner, a))
  }

  /** An owned token is edition `EditionOf(t)` of the series its id names, and that series lists it. */
  lemma OwnedTokenSeries(
    series: map<TokenSeriesId, TokenSeries>,
    ownerById: map<TokenId, AccountId>,
    tokenMetadataById: map<TokenId, TokenMetadata>,
    tokensPerOwner: map<AccountId, set<TokenId>>,
    approvalsById: map<TokenId, map<AccountId, nat>>,
    nextApprovalIdById: map<TokenId, nat>,
    tokenId: TokenId)
    requires StoreValid(series)
    requires RegistryValid(series, ownerById, tokenMetadataById, tokensPerOwner, approvalsById, nextApprovalIdById)
    requires tokenId in ownerById
    ensures SeriesPart(tokenId) in series && tokenId in series[SeriesPart(tokenId)].tokens
    ensures EntryValid(series, SeriesPart(tokenId)) && EditionOf(tokenId).Some?
    ensures tokenId == MakeTokenId(SeriesPart(tokenId), EditionOf(tokenId).value)
  {
    assert TokenRecorded(series, ownerById, tokensPerOwner, tokenId);
    var id :| id in series && tokenId in series[id].tokens;
    assert EntryValid(series, id);
    TokenIdRoundTrip(id, EditionOf(tokenId).value);
  }

  /** The next edition of a series has no owner yet: every owned id is an edition already listed. */
  lemma NextEditionUnowned(
    series: map<TokenSeriesId, TokenSeries>,
    ownerById: map<TokenId, AccountId>,
    tokenMetadataById: map<TokenId, TokenMetadata>,
    tokensPerOwner: map<AccountId, set<TokenId>>,
    approvalsById: map<TokenId, map<AccountId, nat>>,
    nextApprovalIdById: map<TokenId, nat>,
    seriesId: TokenSeriesId)
    requires StoreValid(series)
    requires RegistryValid(series, ownerById, tokenMetadataById, tokensPerOwner, approvalsById, nextApprovalIdById)
    requires seriesId in series
    ensures MakeTokenId(seriesId, |series[seriesId].tokens| + 1) !in ownerById
  {
    var n := |series[seriesId].tokens|;
    var tokenId := MakeTokenId(seriesId, n + 1);
    assert EntryValid(series, seriesId);
    if tokenId in ownerById {
      OwnedTokenSeries(series, ownerById, tokenMetadataById, tokensPerOwner, approvalsById, nextApprovalIdById, tokenId);
      TokenIdRoundTrip(seriesId, n + 1);
      assert false;
    }
  }

  /**
   * Minting edition n + 1 of a series: the new id has no owner, no approvals and no approval
   * counter yet, and recording it in its series, its owner, metadata and index entry keeps the
   * series store and the registry consistent.
   */
  lemma MintKeepsRegistry(
    series: map<TokenSeriesId, TokenSeries>,
    ownerById: map<TokenId, AccountId>,
    tokenMetadataById: map<TokenId, TokenMetadata>,
    tokensPerOwner: map<AccountId, set<TokenId>>,
    approvalsById: map<TokenId, map<AccountId, nat>>,
    nextApprovalIdById: map<TokenId, nat>,
    seriesId: TokenSeriesId, receiverId: AccountId, metadata: TokenMetadata)
    requires StoreValid(series)
    requires RegistryValid(series, ownerById, tokenMetadataById, tokensPerOwner, approvalsById, nextApprovalIdById)
    requires seriesId in series && MintStep(seriesId, series[seriesId]).Success?
    ensures var tokenId := MakeTokenId(seriesId, |series[seriesId].tokens| + 1);
      && tokenId !in ownerById && tokenId !in approvalsById && tokenId !in nextApprovalIdById
      && StoreValid(series[seriesId := MintStep(seriesId, series[seriesId]).value])
      && RegistryValid(
           series[seriesId := MintStep(seriesId, series[seriesId]).value],
           ownerById[tokenId := receiverId],
           tokenMetadataById[tokenId := metadata],
           tokensPerOwner[receiverId := TokensOf(tokensPerOwner, receiverId) + {tokenId}],
           approvalsById, nextApprovalIdById)
  {
    var s := series[seriesId];
    var tokenId := MakeTokenId(seriesId, |s.tokens| + 1);
    assert EntryValid(series, seriesId);
    MintStepKeepsSeries(seriesId, s);
    UpdateSeriesKeepsStore(series, seriesId, MintStep(seriesId, s).value);
    NextEditionUnowned(series, ownerById, tokenMetadataById, tokensPerOwner, approvalsById, nextApprovalIdById, seriesId);
    AddTokenKeepsRegistry(series, ownerById, tokenMetadataById, tokensPerOwner, approvalsById, nextApprovalIdById,
      seriesId, MintStep(seriesId, s).value, tokenId, receiverId, metadata);
  }

  /** Recording a new, unowned token that a series now lists. */
  lemma AddTokenKeepsRegistry(
    series: map<TokenSeriesId, TokenSeries>,
    ownerById: map<TokenId, AccountId>,
    tokenMetadataById: map<TokenId, TokenMetadata>,
    tokensPerOwner: map<AccountId, set<TokenId>>,
    approvalsById: map<TokenId, map<AccountId, nat>>,
    nextApprovalIdById: map<TokenId, nat>,
    seriesId: TokenSeriesId, s': TokenSeries, tokenId: TokenId, receiverId: AccountId, metadata: TokenMetadata)
    requires RegistryValid(series, ownerById, tokenMetadataById, tokensPerOwner, approvalsById, nextApprovalIdById)
    requires seriesId in series && tokenId !in ownerById
    requires s'.tokens == series[seriesId].tokens + {tokenId}
    ensures tokenId !in approvalsById && tokenId !in nextApprovalIdById
    ensures RegistryValid(
      series[seriesId := s'],
      ownerById[tokenId := receiverId],
      tokenMetadataById[tokenId := metadata],
      tokensPerOwner[receiverId := TokensOf(tokensPerOwner, receiverId) + {tokenId}],
      approvalsById, nextApprovalIdById)
  {
    UpdateSeriesKeepsRegistry(series, ownerById, tokenMetadataById, tokensPerOwner, approvalsById, nextApprovalIdById, seriesId, s');
    var series' := series[seriesId := s'];
    var ownerById' := ownerById[tokenId := receiverId];
    var tokensPerOwner' := tokensPerOwner[receiverId := TokensOf(tokensPerOwner, receiverId) + {tokenId}];
    forall t | t in ownerById' ensures TokenRecorded(series', ownerById', tokensPerOwner', t) {
      if t == tokenId {
        assert seriesId in series' && tokenId in series'[seriesId].tokens;
      } else {
        assert TokenRecorded(series', ownerById, tokensPerOwner, t);
      }
    }
    forall a | a in tokensPerOwner' ensures IndexEntryValid(ownerById', tokensPerOwner', a) {
      if a in tokensPerOwner {
        assert IndexEntryValid(ownerById, tokensPerOwner, a);
      }
    }
  }

  /** Replacing a series without changing its minted tokens keeps the registry consistent. */
  lemma UpdateSeriesKeepsRegistry(
    series: map<TokenSeriesId, TokenSeries>,
    ownerById: map<TokenId, AccountId>,
    tokenMetadataById: map<TokenId, TokenMetadata>,
    tokensPerOwner: map<AccountId, set<TokenId>>,
    approvalsById: map<TokenId, map<AccountId, nat>>,
    nextApprovalIdById: map<TokenId, nat>,
    seriesId: TokenSeriesId, s: TokenSeries)
    requires RegistryValid(series, ownerById, tokenMetadataById, tokensPerOwner, approvalsById, nextApprovalIdById)
    requires seriesId !in series || series[seriesId].tokens <= s.tokens
    ensures RegistryValid(series[seriesId := s], ownerById, tokenMetadataById, tokensPerOwner, approvalsById, nextApprovalIdById)
  {
    var series' := series[seriesId := s];
    forall t | t in ownerById ensures TokenRecorded(series', ownerById, tokensPerOwner, t) {
      assert TokenRecorded(series, ownerById, tokensPerOwner, t);
      var id :| id in series && t in series[id].tokens;
      assert id in series' && t in series'[id].tokens;
    }
  }

  /**
   * `nft_burn`: removing the token from the owner map, its metadata, approvals, approval counter
   * and its owner's index entry keeps the registry consistent. The series keeps the id.
   */
  lemma BurnKeepsRegistry(
    series: map<TokenSeriesId, TokenSeries>,
    ownerById: map<TokenId, AccountId>,
    tokenMetadataById: map<TokenId, TokenMetadata>,
    tokensPerOwner: map<AccountId, set<TokenId>>,
    approvalsById: map<TokenId, map<AccountId, nat>>,
    nextApprovalIdById: map<TokenId, nat>,
    tokenId: TokenId)
    requires RegistryValid(series, ownerById, tokenMetadataById, tokensPerOwner, approvalsById, nextApprovalIdById)
    requires tokenId in ownerById
    ensures ownerById[tokenId] in tokensPerOwner
    ensures RegistryValid(
      series, ownerById - {tokenId}, tokenMetadataById - {tokenId},
      tokensPerOwner[ownerById[tokenId] := tokensPerOwner[ownerById[tokenId]] - {tokenId}],
      approvalsById - {tokenId}, nextApprovalIdById - {tokenId})
  {
    var owner := ownerById[tokenId];
    assert TokenRecorded(series, ownerById, tokensPerOwner, tokenId);
    var ownerById' := ownerById - {tokenId};
    var tokensPerOwner' := tokensPerOwner[owner := tokensPerOwner[owner] - {tokenId}];
    forall t | t in ownerById' ensures TokenRecorded(series, ownerById', tokensPerOwner', t) {
      assert TokenRecorded(series, ownerById, tokensPerOwner, t);
    }
    forall a | a in tokensPerOwner' ensures IndexEntryValid(ownerById', tokensPerOwner', a) {
      assert IndexEntryValid(ownerById, tokensPerOwner, a);
    }
  }

  /** Recording an approval for an owned token keeps the registry consistent. */
  lemma ApproveKeepsRegistry(
    series: map<TokenSeriesId, TokenSeries>,
    ownerById: map<TokenId, AccountId>,
    tokenMetadataById: map<TokenId, TokenMetadata>,
    tokensPerOwner: map<AccountId, set<TokenId>>,
    approvalsById: map<TokenId, map<AccountId, nat>>,
    nextApprovalIdById: map<TokenId, nat>,
    tokenId: TokenId, approved: map<AccountId, nat>, nextApprovalId: nat)
    requires RegistryValid(series, ownerById, tokenMetadataById, tokensPerOwner, approvalsById, nextApprovalIdById)
    requires tokenId in ownerById
    ensures RegistryValid(
      series, ownerById, tokenMetadataById, tokensPerOwner,
      approvalsById[tokenId := approved], nextApprovalIdById[tokenId := nextApprovalId])
  {
  }

  /** The per-owner index after a token moves from one account to another. */
  function MoveToken(tokensPerOwner: map<AccountId, set<TokenId>>, from: AccountId, to: AccountId, tokenId: TokenId): (r: map<AccountId, set<TokenId>>)
    ensures TokensOf(r, to) == TokensOf(tokensPerOwner, to) + {tokenId}
    ensures from != to ==> TokensOf(r, from) == TokensOf(tokensPerOwner, from) - {tokenId}
    ensures forall a | a != from && a != to :: TokensOf(r, a) == TokensOf(tokensPerOwner, a)
  {
    var removed := tokensPerOwner[from := TokensOf(tokensPerOwner, from) - {tokenId}];
    removed[to := TokensOf(removed, to) + {tokenId}]
  }

  /**
   * The NEP-171 transfer guard: the sender owns the token, or is approved for it (with the
   * given approval id, when one is given); and the receiver is not the current owner.
   */
  predicate TransferAllowed(
    approvalsById: map<TokenId, map<AccountId, nat>>, tokenId: TokenId, ownerId: AccountId,
    senderId: AccountId, receiverId: AccountId, approvalId: Option<nat>): (ok: bool)
    ensures ok ==> receiverId != ownerId
    ensures senderId == ownerId ==> (ok <==> receiverId != ownerId)
    ensures tokenId !in approvalsById ==> (ok <==> senderId == ownerId && receiverId != ownerId)
  {
    && (senderId == ownerId
        || (tokenId in approvalsById && senderId in approvalsById[tokenId]
            && (approvalId.Some? ==> approvalId.value == approvalsById[tokenId][senderId])))
    && receiverId != ownerId
  }

  /**
   * A transfer clears the token's approvals, so afterwards only the new owner may transfer it
   * again: every account the old owner approved loses that right.
   */
  lemma OnlyNewOwnerMayTransfer(
    approvalsById: map<TokenId, map<AccountId, nat>>, tokenId: TokenId, newOwnerId: AccountId,
    senderId: AccountId, receiverId: AccountId, approvalId: Option<nat>)
    ensures TransferAllowed(approvalsById - {tokenId}, tokenId, newOwnerId, senderId, receiverId, approvalId)
      <==> senderId == newOwnerId && receiverId != newOwnerId
  {
    assert tokenId !in approvalsById - {tokenId};
  }

  /** A transfer moves the owner and the index entry and clears the token's approvals. */
  lemma TransferKeepsRegistry(
    series: map<TokenSeriesId, TokenSeries>,
    ownerById: map<TokenId, AccountId>,
    tokenMetadataById: map<TokenId, TokenMetadata>,
    tokensPerOwner: map<AccountId, set<TokenId>>,
    approvalsById: map<TokenId, map<AccountId, nat>>,
    nextApprovalIdById: map<TokenId, nat>,
    tokenId: TokenId, receiverId: AccountId)
    requires RegistryValid(series, ownerById, tokenMetadataById, tokensPerOwner, approvalsById, nextApprovalIdById)
    requires tokenId in ownerById
    ensures RegistryValid(
      series, ownerById[tokenId := receiverId], tokenMetadataById,
      MoveToken(tokensPerOwner, ownerById[tokenId], receiverId, tokenId),
      approvalsById - {tokenId}, nextApprovalIdById)
  {
    var owner := ownerById[tokenId];
    var ownerById' := ownerById[tokenId := receiverId];
    var tokensPerOwner' := MoveToken(tokensPerOwner, owner, receiverId, tokenId);
    forall t | t in ownerById' ensures TokenRecorded(series, ownerById', tokensPerOwner', t) {
      assert TokenRecorded(series, ownerById, tokensPerOwner, t);
    }
    forall a | a in tokensPerOwner' ensures IndexEntryValid(ownerById', tokensPerOwner', a) {
      if a in tokensPerOwner {
        assert IndexEntryValid(ownerById, tokensPerOwner, a);
      }
    }
  }
}
