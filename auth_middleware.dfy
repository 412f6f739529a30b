/**
 * backend/src/middleware/authMiddleware.js: the gate in front of every
 * protected route. It reads the Authorization header, verifies the bearer
 * token, and re-reads the user the token names from the users table; the
 * principal handed to the route is that stored row without its password
 * hash, never the token's own claims.
 */
module AuthMiddleware {
  import opened Wrappers
  import opened Models
  import opened Responses
  import opened Security
  import opened Associations

  /** Either the route runs with `principal` as `req.user`, or the gate answers `reply` itself. */
  datatype GateResult = Proceed(principal: PublicUser) | Reject(reply: Reply<()>)

  predicate StartsWith(s: string, prefix: string) {
    |prefix| <= |s| && s[..|prefix|] == prefix
  }

  /** `s.split(' ')`: the pieces between single spaces, empty pieces included. */
  function Split(s: string): (r: seq<string>)
    ensures |r| >= 1
    decreases |s|
  {
    if s == [] then [""]
    else if s[0] == ' ' then [""] + Split(s[1..])
    else
      var rest := Split(s[1..]);
      [[s[0]] + rest[0]] + rest[1..]
  }

  /** The longest prefix of `s` without a space. */
  function UntilSpace(s: string): (r: string)
    decreases |s|
  {
    if s == [] || s[0] == ' ' then [] else [s[0]] + UntilSpace(s[1..])
  }

  /** The first piece of a split is everything before the first space. */
  lemma {:induction false} SplitFirst(s: string)
    ensures Split(s)[0] == UntilSpace(s)
    ensures ' ' !in s ==> Split(s) == [s]
    decreases |s|
  {
    if s != [] && s[0] != ' ' {
      SplitFirst(s[1..]);
      assert s == [s[0]] + s[1..];
    }
  }

  /** A piece of text with no space in it is its own longest space-free prefix. */
  lemma {:induction false} UntilSpaceWhole(s: string)
    requires ' ' !in s
    ensures UntilSpace(s) == s
    decreases |s|
  {
    if s != [] {
      assert s[0] in s;
      assert forall k :: 1 <= k < |s| ==> s[1..][k - 1] == s[k];
      UntilSpaceWhole(s[1..]);
      assert s == [s[0]] + s[1..];
    }
  }

  /** The split of `p + " " + rest` for a space-free, non-empty `p`, piece by piece. */
  lemma {:induction false} SplitAfterWord(p: string, rest: string)
    requires ' ' !in p && p != []
    ensures Split(p + " " + rest) == [p] + Split(rest)
    decreases |p|
  {
    var s := p + " " + rest;
    assert s[0] == p[0] && s[0] != ' ';
    if |p| == 1 {
      assert s[1..] == " " + rest;
      assert (" " + rest)[0] == ' ' && (" " + rest)[1..] == rest;
      assert Split(" " + rest) == [""] + Split(rest);
      assert [p[0]] + "" == p;
    } else {
      assert p[1..][0] == p[1];
      assert ' ' !in p[1..] by {
        forall k | 0 <= k < |p[1..]| ensures p[1..][k] != ' ' { assert p[1..][k] == p[k + 1]; }
      }
      assert s[1..] == p[1..] + " " + rest;
      SplitAfterWord(p[1..], rest);
      assert [p[0]] + p[1..] == p;
    }
  }

  const Bearer := "Bearer "

  /** `authHeader.split(' ')[1]` is the text between "Bearer " and the next space. */
  lemma BearerTokenPiece(header: string)
    requires StartsWith(header, Bearer)
    ensures |Split(header)| >= 2
    ensures Split(header)[1] == UntilSpace(header[|Bearer|..])
  {
    var rest := header[|Bearer|..];
    assert header == "Bearer" + " " + rest;
    assert ' ' !in "Bearer";
    SplitAfterWord("Bearer", rest);
    SplitFirst(rest);
  }

  /** The header test of lines 10-12: absent, empty, or without the "Bearer " prefix. */
  predicate NoBearer(header: Option<string>) {
    header.None? || header.value == "" || !StartsWith(header.value, Bearer)
  }

  /**
   * `authMiddleware`. `lookupFails` stands for the user lookup throwing (the
   * database being unreachable), the only step here that can throw.
   */
  function Authenticate(users: map<Id, User>, header: Option<string>, tokens: TokenService, lookupFails: bool): (g: GateResult)
    requires KeyedById(users)
    ensures g.Reject? ==> !g.reply.Success() && g.reply.status == 401
    ensures NoBearer(header) ==> g == Reject(ErrorResponse(401, "No token provided"))
    ensures g.Proceed? ==> g.principal.id in users && g.principal == PublicView(users[g.principal.id])
  {
    if NoBearer(header) then
      Reject(ErrorResponse(401, "No token provided"))
    else
      BearerTokenPiece(header.value);
      var token := Split(header.value)[1];
      match tokens.verify(token)
      case None => Reject(ErrorResponse(401, "Invalid or expired token"))
      case Some(claims) =>
        if lookupFails then Reject(ErrorResponse(401, "Authentication failed"))
        else if claims.id !in users then Reject(ErrorResponse(401, "User not found"))
        else Proceed(PublicView(users[claims.id]))
  }

  /** The bearer token the gate verifies, for a header that passed the prefix test. */
  function TokenOf(header: string): string
    requires StartsWith(header, Bearer)
  {
    BearerTokenPiece(header);
    Split(header)[1]
  }

  /**
   * The verdict after the prefix test: a token that does not verify is 401
   * 'Invalid or expired token'; a verified token naming no user is 401 'User
   * not found'; otherwise the principal is the stored row the claims' id
   * names, whatever username and email the claims carry.
   */
  lemma GateVerdicts(users: map<Id, User>, header: string, tokens: TokenService, lookupFails: bool)
    requires KeyedById(users)
    requires StartsWith(header, Bearer)
    ensures var g := Authenticate(users, Some(header), tokens, lookupFails);
      && (tokens.verify(TokenOf(header)).None? ==> g == Reject(ErrorResponse(401, "Invalid or expired token")))
      && (tokens.verify(TokenOf(header)).Some? && lookupFails ==> g == Reject(ErrorResponse(401, "Authentication failed")))
      && (tokens.verify(TokenOf(header)).Some? && !lookupFails ==>
            var id := tokens.verify(TokenOf(header)).value.id;
            if id in users then g == Proceed(PublicView(users[id]))
            else g == Reject(ErrorResponse(401, "User not found")))
  {
    assert header != "";
  }

  /** A token the token service issued for a stored user lets that user's current row through. */
  lemma IssuedTokenPasses(users: map<Id, User>, tokens: TokenService, c: Claims)
    requires KeyedById(users)
    requires TokenSound(tokens)
    requires c.id in users
    ensures Authenticate(users, Some(Bearer + tokens.sign(c)), tokens, false) == Proceed(PublicView(users[c.id]))
  {
    var token := tokens.sign(c);
    var header := Bearer + token;
    assert header[..|Bearer|] == Bearer;
    assert header[|Bearer|..] == token;
    BearerTokenPiece(header);
    UntilSpaceWhole(token);
    GateVerdicts(users, header, tokens, false);
  }
}
