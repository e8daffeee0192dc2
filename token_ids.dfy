/**
 * Decimal formatting of ids and the "<series>:<edition>" token id: how `format!` builds it
 * at mint time (lib.rs:336, 599) and how `split(':')` takes it apart again (lib.rs:926-946).
 */
module TokenIds {
  import opened Wrappers

  /** `TOKEN_DELIMETER` */
  const TOKEN_DELIMITER: char := ':'
  /** `TITLE_DELIMETER` */
  const TITLE_DELIMITER: string := " #"

  predicate IsDigit(c: char) {
    '0' <= c <= '9'
  }

  predicate AllDigits(s: string) {
    forall i | 0 <= i < |s| :: IsDigit(s[i])
  }

  function DigitChar(d: nat): (c: char)
    requires d < 10
    ensures IsDigit(c) && c as int - '0' as int == d
  {
    ('0' as int + d) as char
  }

  /** `format!("{}", n)`: the decimal digits of `n`, without leading zeros. */
  function NatToString(n: nat): (s: string)
    ensures |s| > 0 && AllDigits(s)
    ensures TOKEN_DELIMITER !in s
  {
    if n < 10 then [DigitChar(n)] else NatToString(n / 10) + [DigitChar(n % 10)]
  }

  /** The number a non-empty string of decimal digits denotes; None for anything else. */
  function DecimalValue(s: string): Option<nat> {
    if s == [] || !IsDigit(s[|s| - 1]) then None
    else
      var d := s[|s| - 1] as int - '0' as int;
      if |s| == 1 then Some(d)
      else
        match DecimalValue(s[..|s| - 1])
        case None => None
        case Some(v) => Some(10 * v + d)
  }

  /** Reading back what `NatToString` printed gives the number again. */
  lemma {:induction false} DecimalRoundTrip(n: nat)
    ensures DecimalValue(NatToString(n)) == Some(n)
  {
    var s := NatToString(n);
    if n >= 10 {
      DecimalRoundTrip(n / 10);
      assert s[..|s| - 1] == NatToString(n / 10);
    }
  }

  /** Two numbers print the same only when they are equal. */
  lemma NatToStringInjective(a: nat, b: nat)
    requires NatToString(a) == NatToString(b)
    ensures a == b
  {
    DecimalRoundTrip(a);
    DecimalRoundTrip(b);
  }

  /** The first piece of `s.split(':')`: everything before the first delimiter. */
  function Before(s: string): (r: string)
    ensures TOKEN_DELIMITER !in r
    ensures r <= s
  {
    if s == [] || s[0] == TOKEN_DELIMITER then [] else [s[0]] + Before(s[1..])
  }

  /** Everything after the first delimiter, or None when `s` has none. */
  function After(s: string): Option<string> {
    if s == [] then None
    else if s[0] == TOKEN_DELIMITER then Some(s[1..])
    else After(s[1..])
  }

  /** Splitting at the first delimiter gives back exactly the two parts joined around it. */
  lemma {:induction false} SplitJoin(a: string, b: string)
    requires TOKEN_DELIMITER !in a
    ensures Before(a + [TOKEN_DELIMITER] + b) == a
    ensures After(a + [TOKEN_DELIMITER] + b) == Some(b)
  {
    if a != [] {
      assert (a + [TOKEN_DELIMITER] + b)[1..] == a[1..] + [TOKEN_DELIMITER] + b;
      SplitJoin(a[1..], b);
    }
  }

  /** Conversely, a string is its two split parts joined around the delimiter, if it has one. */
  lemma {:induction false} JoinSplit(s: string)
    ensures After(s).Some? ==> s == Before(s) + [TOKEN_DELIMITER] + After(s).value
    ensures After(s).None? ==> TOKEN_DELIMITER !in s && Before(s) == s
  {
    if s != [] && s[0] != TOKEN_DELIMITER {
      JoinSplit(s[1..]);
      assert s == [s[0]] + s[1..];
    }
  }

  /**
   * The id of edition `edition` of series `seriesId`: `format!("{}{}{}", id, ':', edition)`.
   * Splitting it at its first delimiter gives back the series id and the edition text.
   */
  function MakeTokenId(seriesId: string, edition: nat): (id: string)
    ensures TOKEN_DELIMITER !in seriesId ==> Before(id) == seriesId && After(id) == Some(NatToString(edition))
  {
    var id := seriesId + [TOKEN_DELIMITER] + NatToString(edition);
    assert TOKEN_DELIMITER !in seriesId ==> Before(id) == seriesId && After(id) == Some(NatToString(edition)) by {
      if TOKEN_DELIMITER !in seriesId {
        SplitJoin(seriesId, NatToString(edition));
      }
    }
    id
  }

  /**
   * `token_id.split(':').next().unwrap()`: the series id inside a token id, which is its
   * longest prefix without a delimiter.
   */
  function SeriesPart(tokenId: string): (r: string)
    ensures TOKEN_DELIMITER !in r && r <= tokenId
    ensures |r| < |tokenId| ==> tokenId[|r|] == TOKEN_DELIMITER
  {
    JoinSplit(tokenId);
    Before(tokenId)
  }

  /**
   * The second `next()` of the same split: the edition text, None when there is no
   * delimiter; it is the delimiter-free stretch after the series part and its delimiter.
   */
  function EditionPart(tokenId: string): (r: Option<string>)
    ensures r.Some? <==> TOKEN_DELIMITER in tokenId
    ensures r.Some? ==> TOKEN_DELIMITER !in r.value && SeriesPart(tokenId) + [TOKEN_DELIMITER] + r.value <= tokenId
  {
    JoinSplit(tokenId);
    match After(tokenId)
    case None => None
    case Some(rest) =>
      assert tokenId == Before(tokenId) + [TOKEN_DELIMITER] + rest;
      assert TOKEN_DELIMITER in tokenId by {
        assert tokenId[|Before(tokenId)|] == TOKEN_DELIMITER;
      }
      Some(Before(rest))
  }

  /** The edition number a token id carries after its delimiter, if it is a decimal. */
  function EditionOf(tokenId: string): Option<nat> {
    match After(tokenId)
    case None => None
    case Some(rest) => DecimalValue(rest)
  }

  /** A minted id splits back into the series id and the edition it was formatted from. */
  lemma TokenIdRoundTrip(seriesId: string, edition: nat)
    requires TOKEN_DELIMITER !in seriesId
    ensures SeriesPart(MakeTokenId(seriesId, edition)) == seriesId
    ensures EditionPart(MakeTokenId(seriesId, edition)) == Some(NatToString(edition))
    ensures EditionOf(MakeTokenId(seriesId, edition)) == Some(edition)
  {
    SplitJoin(seriesId, NatToString(edition));
    JoinSplit(NatToString(edition));
    DecimalRoundTrip(edition);
  }

  /** Distinct (series, edition) pairs never produce the same token id. */
  lemma MakeTokenIdInjective(s1: string, e1: nat, s2: string, e2: nat)
    requires TOKEN_DELIMITER !in s1 && TOKEN_DELIMITER !in s2
    requires MakeTokenId(s1, e1) == MakeTokenId(s2, e2)
    ensures s1 == s2 && e1 == e2
  {
    TokenIdRoundTrip(s1, e1);
    TokenIdRoundTrip(s2, e2);
  }
}
