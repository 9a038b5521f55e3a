/** Bearer-token lookup (`FindTokenByPlainToken`): a Sanctum-style "id|secret" token or a
    bare secret, checked against the `personal_access_tokens` table, whose `token` column
    may hold the SHA-256 hex of the secret or the secret itself. */
module Tokens {
  import opened Wrappers
  import opened Text

  const UserTokenableType := "App\\Infrastructure\\Persistence\\Models\\User"

  /** One row of `personal_access_tokens`. */
  datatype Pat = Pat(id: int, token: string, tokenableId: int, tokenableType: string,
                     abilities: string, expiresAt: Option<int>, createdAt: int)

  /** The id candidate and the secret part of a presented token. */
  datatype TokenSplit = TokenSplit(id: Option<int>, tokenPart: string)

  /** Splits a presented token: the text before the first "|" is the id candidate when that
      "|" is not the first character; a prefix that is not an int64 leaves the id absent. */
  function SplitToken(plain: string): (r: Result<TokenSplit>)
    ensures IsBlank(plain) <==> r == Err("empty token")
    ensures r.Ok? ==> var t := TrimSpace(plain);
      match IndexOf(t, '|')
      case Some(k) =>
        if k > 0 then r.value == TokenSplit(ParseInt64(t[..k]), t[k + 1..])
        else r.value == TokenSplit(None, t)
      case None => r.value == TokenSplit(None, t)
  {
    TrimSpaceEmpty(plain);
    var t := TrimSpace(plain);
    if t == "" then Err("empty token")
    else match IndexOf(t, '|')
      case Some(k) =>
        if k > 0 then Ok(TokenSplit(ParseInt64(t[..k]), t[k + 1..])) else Ok(TokenSplit(None, t))
      case None => Ok(TokenSplit(None, t))
  }

  /** A row is live at `now` for a user token. */
  predicate Live(p: Pat, now: int) {
    p.tokenableType == UserTokenableType && (p.expiresAt.None? || p.expiresAt.value > now)
  }

  /** The query by primary key: the live row with that id, if any. */
  function ById(rows: seq<Pat>, id: int, now: int): (r: Option<Pat>)
    ensures r.Some? ==> r.value in rows && r.value.id == id && Live(r.value, now)
  {
    if rows == [] then None
    else if rows[0].id == id && Live(rows[0], now) then Some(rows[0])
    else ById(rows[1..], id, now)
  }

  /** The fallback query: the most recently created live row whose token is one of the two forms. */
  function Newest(rows: seq<Pat>, hashed: string, part: string, now: int): (r: Option<Pat>)
    ensures r.Some? ==> r.value in rows && Live(r.value, now) && (r.value.token == hashed || r.value.token == part)
    ensures r.Some? ==> forall p :: p in rows && Live(p, now) && (p.token == hashed || p.token == part) ==>
      p.createdAt <= r.value.createdAt
    ensures r.None? ==> forall p :: p in rows ==> !(Live(p, now) && (p.token == hashed || p.token == part))
  {
    if rows == [] then None
    else
      var rest := Newest(rows[1..], hashed, part, now);
      var p := rows[0];
      if Live(p, now) && (p.token == hashed || p.token == part) && (rest.None? || rest.value.createdAt <= p.createdAt)
      then Some(p) else rest
  }

  /** The two queries `FindTokenByPlainToken` may send; a query in the failing set answers
      with an error other than "no rows". */
  datatype TokenQuery = QueryById | QueryByValue

  /** The fallback query by token value: its error, whatever it is, reads "token not found". */
  function Fallback(rows: seq<Pat>, failing: set<TokenQuery>, hashed: string, part: string, now: int): (r: Result<Pat>)
    ensures r.Err? ==> r.error == "token not found"
  {
    if QueryByValue in failing then Err("token not found")
    else match Newest(rows, hashed, part, now)
      case None => Err("token not found")
      case Some(p) => Ok(p)
  }

  /** `FindTokenByPlainToken`; `sha256Hex` stands for the SHA-256 digest in lower-case hex.
      An error of the query by id is only logged, and the fallback runs. */
  function FindToken(rows: seq<Pat>, failing: set<TokenQuery>, plain: string, now: int, sha256Hex: string -> string): Result<Pat> {
    match SplitToken(plain)
    case Err(e) => Err(e)
    case Ok(sp) =>
      var hashed := sha256Hex(sp.tokenPart);
      var byId := if sp.id.Some? && QueryById !in failing then ById(rows, sp.id.value, now) else None;
      if byId.Some? && (byId.value.token == hashed || byId.value.token == sp.tokenPart) then Ok(byId.value)
      else Fallback(rows, failing, hashed, sp.tokenPart, now)
  }

  /** Any token accepted is a live user token whose stored value is the digest of the
      presented secret or that secret itself; a blank token is refused at once, and every
      other refusal reads "token not found". */
  lemma FindTokenSound(rows: seq<Pat>, failing: set<TokenQuery>, plain: string, now: int, sha256Hex: string -> string)
    ensures IsBlank(plain) ==> FindToken(rows, failing, plain, now, sha256Hex) == Err("empty token")
    ensures var r := FindToken(rows, failing, plain, now, sha256Hex);
      r.Ok? ==> (SplitToken(plain).Ok? && r.value in rows && Live(r.value, now)
        && (r.value.token == sha256Hex(SplitToken(plain).value.tokenPart) || r.value.token == SplitToken(plain).value.tokenPart))
    ensures var r := FindToken(rows, failing, plain, now, sha256Hex);
      r.Err? && !IsBlank(plain) ==> r.error == "token not found"
  {
  }

  /** When the database answers, a live row stored under either form of the secret is always
      found, through the id query or the fallback. */
  lemma FindTokenComplete(rows: seq<Pat>, plain: string, now: int, sha256Hex: string -> string, p: Pat)
    requires SplitToken(plain).Ok? && p in rows && Live(p, now)
    requires p.token == sha256Hex(SplitToken(plain).value.tokenPart) || p.token == SplitToken(plain).value.tokenPart
    ensures FindToken(rows, {}, plain, now, sha256Hex).Ok?
  {
  }

  /** The database errors: a failing id query changes nothing but that the fallback decides,
      and a failing fallback leaves only a match by id, so with both failing every token is
      refused as "token not found". */
  lemma FindTokenFaults(rows: seq<Pat>, failing: set<TokenQuery>, plain: string, now: int, sha256Hex: string -> string)
    requires SplitToken(plain).Ok?
    ensures var sp := SplitToken(plain).value;
      QueryById in failing ==>
        FindToken(rows, failing, plain, now, sha256Hex) == Fallback(rows, failing, sha256Hex(sp.tokenPart), sp.tokenPart, now)
    ensures var sp := SplitToken(plain).value; var r := FindToken(rows, failing, plain, now, sha256Hex);
      QueryByValue in failing && r.Ok? ==>
        QueryById !in failing && sp.id.Some? && r.value.id == sp.id.value
    ensures failing == {QueryById, QueryByValue} ==> FindToken(rows, failing, plain, now, sha256Hex) == Err("token not found")
  {
  }

  /** "7|abc" names id 7 and the secret "abc". */
  lemma SplitTokenWithId()
    ensures SplitToken("7|abc") == Ok(TokenSplit(Some(7), "abc"))
  {
    TrimSpaceOfTrimmedEnds("7|abc");
    assert IndexOf("7|abc", '|') == Some(1);
    assert "7|abc"[..1] == "7" && "7|abc"[2..] == "abc";
    assert DigitsValue("7") == 7;
  }

  /** A leading "|" means there is no id: the whole token is the secret. */
  lemma SplitTokenLeadingBar()
    ensures SplitToken("|abc") == Ok(TokenSplit(None, "|abc"))
  {
    TrimSpaceOfTrimmedEnds("|abc");
  }

  /** A prefix that is not a number leaves the id absent but still splits off the secret. */
  lemma SplitTokenBadId()
    ensures SplitToken("x|abc") == Ok(TokenSplit(None, "abc"))
  {
    TrimSpaceOfTrimmedEnds("x|abc");
    assert IndexOf("x|abc", '|') == Some(1);
    assert "x|abc"[..1] == "x" && "x|abc"[2..] == "abc";
  }
}
