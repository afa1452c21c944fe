/** Identifiers of clients, connections, channels, ports and chains
    (solo-machine-core/src/ibc/core/ics24_host/identifier.rs). */
module Identifier {
  import opened Wrappers
  import opened Text

  const MAX_IDENTIFIER_LEN: nat := 64
  const CLIENT_MIN_LEN: nat := 9
  const CONNECTION_MIN_LEN: nat := 10
  const CHANNEL_MIN_LEN: nat := 8
  const PORT_MIN_LEN: nat := 2
  const CHAIN_MIN_LEN: nat := 1

  datatype IdentifierError = Blank | ContainsSeparator | InvalidCharacter | InvalidLength

  predicate IsAlphanumeric(c: char) {
    'a' <= c <= 'z' || 'A' <= c <= 'Z' || IsDigit(c)
  }

  /** The character class of the accepted identifiers. */
  predicate IsIdentifierChar(c: char) {
    IsAlphanumeric(c) || c in "._+-#[]<>"
  }

  /** Unicode white space, as `str::trim` sees it. */
  predicate IsWhitespace(c: char) {
    '\U{9}' <= c <= '\U{D}' || c == ' ' || c == '\U{85}' || c == '\U{A0}' || c == '\U{1680}' ||
    '\U{2000}' <= c <= '\U{200A}' || c == '\U{2028}' || c == '\U{2029}' || c == '\U{202F}' ||
    c == '\U{205F}' || c == '\U{3000}'
  }

  predicate AllIdentifierChars(s: string) {
    forall i | 0 <= i < |s| :: IsIdentifierChar(s[i])
  }

  /** The checks of `Identifier::from_str`, in order. The length is taken only of text that passed the
      character check and is therefore ASCII, so counting bytes is counting characters. */
  function ParseIdentifier(s: string): Result<string, IdentifierError> {
    if forall i | 0 <= i < |s| :: IsWhitespace(s[i]) then Err(Blank)
    else if '/' in s then Err(ContainsSeparator)
    else if s == "" || !AllIdentifierChars(s) then Err(InvalidCharacter)
    else if !(1 <= |s| <= MAX_IDENTIFIER_LEN) then Err(InvalidLength)
    else Ok(s)
  }

  /** `from_str` of the identifier types that differ in their minimum length. */
  function ParseId(s: string, minLen: nat): Result<string, IdentifierError> {
    var id := ParseIdentifier(s);
    if id.Ok? && !(minLen <= |s| <= MAX_IDENTIFIER_LEN) then Err(InvalidLength) else id
  }

  /** What the checks amount to. */
  predicate IsId(s: string, minLen: nat) {
    1 <= |s| <= MAX_IDENTIFIER_LEN && minLen <= |s| && AllIdentifierChars(s)
  }

  /** The separator check and the blank check never decide the outcome: acceptance is the character class
      and the length alone, acceptance returns the text unchanged, and no accepted text has a separator. */
  lemma ParseIdAccepts(s: string, minLen: nat)
    ensures ParseId(s, minLen).Ok? <==> IsId(s, minLen)
    ensures ParseId(s, minLen).Ok? ==> ParseId(s, minLen).value == s && Free('/', s)
  {
    if IsId(s, minLen) {
      assert IsIdentifierChar(s[0]) && !IsWhitespace(s[0]);
    }
  }

  /** Which check refuses a text that is no identifier. */
  lemma IdentifierErrors(s: string)
    ensures ParseIdentifier(s) == Err(Blank) <==> forall c | c in s :: IsWhitespace(c)
    ensures ParseIdentifier(s) == Err(ContainsSeparator) <==> '/' in s
    ensures ParseIdentifier(s) == Err(InvalidLength) <==> |s| > 64 && forall c | c in s :: IsIdentifierChar(c)
  {
    assert !IsWhitespace('/') && !IsIdentifierChar('/');
    if s != "" && forall c | c in s :: IsIdentifierChar(c) {
      assert s[0] in s && !IsWhitespace(s[0]);
    }
  }

  /** How short the identifiers of each kind may be. */
  lemma IdentifierLengths(s: string)
    ensures IsId(s, CLIENT_MIN_LEN) <==> 9 <= |s| <= 64 && forall c | c in s :: IsIdentifierChar(c)
    ensures IsId(s, CONNECTION_MIN_LEN) <==> 10 <= |s| <= 64 && forall c | c in s :: IsIdentifierChar(c)
    ensures IsId(s, CHANNEL_MIN_LEN) <==> 8 <= |s| <= 64 && forall c | c in s :: IsIdentifierChar(c)
    ensures IsId(s, PORT_MIN_LEN) <==> 2 <= |s| <= 64 && forall c | c in s :: IsIdentifierChar(c)
    ensures IsId(s, CHAIN_MIN_LEN) <==> 1 <= |s| <= 64 && forall c | c in s :: IsIdentifierChar(c)
  {
    assert AllIdentifierChars(s) <==> forall c | c in s :: IsIdentifierChar(c);
  }

  predicate AllAlphanumeric(s: string) {
    forall i | 0 <= i < |s| :: IsAlphanumeric(s[i])
  }

  /** `Identifier::generate`: the prefix, a dash and random letters and digits, which are a parameter. It fails only
      for a prefix that no identifier can start with or that leaves too little room. */
  function Generate(prefix: string, samples: string): (id: Result<string, IdentifierError>)
    requires AllAlphanumeric(samples)
    ensures id.Ok? <==> AllIdentifierChars(prefix) && |prefix| + 1 + |samples| <= MAX_IDENTIFIER_LEN
    ensures id.Ok? ==> id.value == prefix + "-" + samples && IsId(id.value, |prefix| + 1 + |samples|)
  {
    var text := prefix + "-" + samples;
    assert forall i | 0 <= i < |prefix| :: text[i] == prefix[i];
    assert forall i | |prefix| < i < |text| :: text[i] == samples[i - |prefix| - 1];
    ParseIdAccepts(text, 1);
    ParseIdentifier(text)
  }

  /** Four random characters, as they are drawn for every generated identifier. */
  predicate IsDraw(samples: string) {
    |samples| == 4 && AllAlphanumeric(samples)
  }

  /** So generating never fails, and the result is long enough for its kind. */
  lemma GeneratedIds(samples: string)
    requires IsDraw(samples)
    ensures Generate("07-tendermint", samples) == Ok("07-tendermint-" + samples)
    ensures Generate("connection", samples) == Ok("connection-" + samples)
    ensures Generate("channel", samples) == Ok("channel-" + samples)
    ensures IsId("07-tendermint-" + samples, CLIENT_MIN_LEN)
    ensures IsId("connection-" + samples, CONNECTION_MIN_LEN) && IsId("channel-" + samples, CHANNEL_MIN_LEN)
  {
    assert "07-tendermint" + "-" == "07-tendermint-";
    assert "connection" + "-" == "connection-" && "channel" + "-" == "channel-";
  }

  // ----- chain identifiers -----

  datatype ChainId = ChainId(id: string, version: nat)

  /** A number without leading zero: `[1-9][0-9]*`. */
  predicate IsVersionNumber(s: string) {
    Canonical(s) && s[0] != '0'
  }

  /** The pattern `^.+[^-]-{1}[1-9][0-9]*$` matches with its dash at position `i`. */
  predicate MatchesAt(s: string, i: nat) {
    2 <= i < |s| && s[i] == '-' && s[i - 1] != '-' && IsVersionNumber(s[i + 1..])
  }

  predicate MatchesVersionFormat(s: string) {
    exists i | 0 <= i < |s| :: MatchesAt(s, i)
  }

  /** On a match, the last dash-separated piece, or 0 if that does not parse as a 64-bit number. */
  function Version(id: string): nat {
    if MatchesVersionFormat(id) then
      var pieces := Split('-', id);
      match ParseU64(pieces[|pieces| - 1])
      case Some(n) => n
      case None => 0
    else 0
  }

  /** `ChainId::from_str`. */
  function ParseChainId(s: string): Result<ChainId, IdentifierError> {
    match ParseId(s, CHAIN_MIN_LEN)
    case Err(e) => Err(e)
    case Ok(id) => Ok(ChainId(id, Version(id)))
  }

  lemma LastDash(s: string, i: nat, j: nat)
    requires i < |s| && s[i] == '-' && Free('-', s[i + 1..])
    requires j < |s| && s[j] == '-' && Free('-', s[j + 1..])
    ensures i == j
  {
    assert forall k | i < k < |s| :: s[k] == s[i + 1..][k - i - 1];
    assert forall k | j < k < |s| :: s[k] == s[j + 1..][k - j - 1];
  }

  /** The pattern can match at one position only. */
  lemma MatchIsUnique(s: string, i: nat, j: nat)
    requires MatchesAt(s, i) && MatchesAt(s, j)
    ensures i == j
  {
    DigitsFree('-', s[i + 1..]);
    DigitsFree('-', s[j + 1..]);
    LastDash(s, i, j);
  }

  /** The number captured by the pattern's trailing group, as a 64-bit number. */
  function Captured(digits: string): nat
    requires AllDigits(digits)
  {
    if DigitsValue(digits) <= U64_MAX then DigitsValue(digits) else 0
  }

  lemma VersionAt(s: string, i: nat)
    requires MatchesAt(s, i)
    ensures Version(s) == Captured(s[i + 1..])
  {
    var digits := s[i + 1..];
    DigitsFree('-', digits);
    SplitLast('-', s[..i], digits);
    assert s == s[..i] + ['-'] + digits;
    assert digits != [] && digits[0] != '+';
  }

  /** The version of an accepted chain id is the number the trailing group of the pattern captures, 0 when it
      exceeds 64 bits, and 0 when the pattern does not match. */
  lemma ChainIdVersion(s: string)
    requires ParseChainId(s).Ok?
    ensures ParseChainId(s).value.id == s
    ensures !MatchesVersionFormat(s) ==> ParseChainId(s).value.version == 0
    ensures forall i: nat | MatchesAt(s, i) :: ParseChainId(s).value.version == Captured(s[i + 1..])
  {
    ParseIdAccepts(s, CHAIN_MIN_LEN);
    forall i: nat | MatchesAt(s, i)
      ensures Version(s) == Captured(s[i + 1..])
    {
      VersionAt(s, i);
    }
  }

  /** Exactly when the pattern matches a text that ends in a dash and digits; a text without a dash never matches. */
  lemma FormatIff(name: string, digits: string)
    requires AllDigits(digits)
    ensures MatchesVersionFormat(name + "-" + digits) <==>
      |name| >= 2 && name[|name| - 1] != '-' && digits != "" && digits[0] != '0'
    ensures !MatchesVersionFormat(digits)
  {
    var s := name + "-" + digits;
    DigitsFree('-', digits);
    assert s[|name|] == '-' && s[|name| + 1..] == digits;
    if i :| 0 <= i < |s| && MatchesAt(s, i) {
      DigitsFree('-', s[i + 1..]);
      LastDash(s, i, |name|);
    }
    if |name| >= 2 && name[|name| - 1] != '-' && digits != "" && digits[0] != '0' {
      assert MatchesAt(s, |name|);
    }
  }

  lemma VersionedName(name: string, digits: string)
    requires |name| >= 2 && AllIdentifierChars(name) && name[|name| - 1] != '-' && IsVersionNumber(digits)
    ensures var s := name + "-" + digits;
      AllIdentifierChars(s) && s[|name| + 1..] == digits && MatchesAt(s, |name|)
  {
    var s := name + "-" + digits;
    assert s[|name| + 1..] == digits;
  }

  /** Appending a version to a name and parsing gives the version back. */
  lemma ChainIdRoundTrip(name: string, version: nat)
    requires |name| >= 2 && AllIdentifierChars(name) && name[|name| - 1] != '-'
    requires 1 <= version <= U64_MAX
    requires |name + "-" + Decimal(version)| <= MAX_IDENTIFIER_LEN
    ensures ParseChainId(name + "-" + Decimal(version)) == Ok(ChainId(name + "-" + Decimal(version), version))
  {
    var s := name + "-" + Decimal(version);
    DecimalCanonical(version);
    VersionedName(name, Decimal(version));
    ParseIdAccepts(s, CHAIN_MIN_LEN);
    VersionAt(s, |name|);
  }
}
