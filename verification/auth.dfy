/** Bearer-token authentication of incoming requests. */
module Auth {
  import opened Common

  /** What the middleware does with a request: answer 401 with an error
      body, or pass it on to the next handler. */
  datatype AuthOutcome = Rejected(status: nat, error: string) | PassedOn

  const UnauthorizedStatus := 401
  const BadTokenMessage := "Bad auth token"

  /** The first six characters spell `Bearer` in any letter case. */
  predicate IsBearerPrefix(h: string) {
    |h| >= 6 && ToLowerAscii(h[..6]) == "bearer"
  }

  predicate NoLineTerminator(s: string) {
    forall k :: 0 <= k < |s| ==> !IsLineTerminator(s[k])
  }

  /** The length of the longest run of white space that `s` starts with. */
  function LeadingSpaces(s: string): (w: nat)
    ensures w <= |s|
    ensures forall k :: 0 <= k < w ==> IsJsSpace(s[k])
    ensures w < |s| ==> !IsJsSpace(s[w])
  {
    if s == [] || !IsJsSpace(s[0]) then 0 else 1 + LeadingSpaces(s[1..])
  }

  /** The pattern `^Bearer\s+(.+)$` (case-insensitive) matches `h` with
      exactly `k` white-space characters after the scheme: the capture,
      which is the rest of the header, is non-empty and holds no line
      terminator. */
  predicate MatchesWithSpaces(h: string, k: int) {
    && IsBearerPrefix(h)
    && 1 <= k && 6 + k < |h|
    && (forall j :: 6 <= j < 6 + k ==> IsJsSpace(h[j]))
    && NoLineTerminator(h[6 + k..])
  }

  /** The match the pattern settles on: `\s+` is greedy, so it is the match
      with the most spaces. */
  ghost predicate GreediestMatch(h: string, k: int) {
    MatchesWithSpaces(h, k) && forall k' :: k < k' ==> !MatchesWithSpaces(h, k')
  }

  /** There is at most one greediest match. */
  lemma GreediestMatchUnique(h: string, k1: int, k2: int)
    requires GreediestMatch(h, k1) && GreediestMatch(h, k2)
    ensures k1 == k2
  {
  }

  /** How many white-space characters `\s+` keeps after the scheme: all of
      the white space that follows it, less one when that white space runs
      to the end of the header, since `(.+)` needs a character. */
  function GreedySpaces(h: string): (k: int)
    requires |h| >= 6
    ensures k <= LeadingSpaces(h[6..])
    ensures forall j :: 6 <= j < 6 + k ==> IsJsSpace(h[j])
  {
    var w := LeadingSpaces(h[6..]);
    if 6 + w < |h| then w else w - 1
  }

  /** The text after the white space `\s+` keeps: the capture. */
  function Capture(h: string): (c: string)
    requires |h| >= 6
    ensures |c| <= |h| - 6
  {
    h[6 + if GreedySpaces(h) < 0 then 0 else GreedySpaces(h)..]
  }

  /** `parseBearer()`: nothing for a missing or empty header; otherwise the
      trimmed capture of the pattern, taken after the white space `\s+`
      keeps, when that is at least one character and the capture holds no
      line terminator. */
  function ParseBearer(header: Option<string>): Option<string> {
    if header.None? || header.value == [] then None
    else
      var h := header.value;
      if !IsBearerPrefix(h) then None
      else
        if GreedySpaces(h) >= 1 && NoLineTerminator(Capture(h)) then Some(Trim(Capture(h))) else None
  }

  lemma {:induction false} LeadingSpacesAtLeast(s: string, n: nat)
    requires n <= |s|
    requires forall k :: 0 <= k < n ==> IsJsSpace(s[k])
    ensures n <= LeadingSpaces(s)
  {
    if n > 0 {
      LeadingSpacesAtLeast(s[1..], n - 1);
    }
  }

  /** No match keeps more white space than the greedy count. */
  lemma SpacesWithinGreedy(h: string, k: int)
    requires MatchesWithSpaces(h, k)
    ensures k <= GreedySpaces(h)
  {
    LeadingSpacesAtLeast(h[6..], k);
  }

  lemma NoLineTerminatorSuffix(s: string, d: nat)
    requires d <= |s| && NoLineTerminator(s)
    ensures NoLineTerminator(s[d..])
  {
  }

  /** When the parse succeeds, the pattern matches with the greedy count. */
  lemma GreedyMatches(h: string)
    requires IsBearerPrefix(h) && GreedySpaces(h) >= 1 && NoLineTerminator(Capture(h))
    ensures MatchesWithSpaces(h, GreedySpaces(h))
  {
    var k := GreedySpaces(h);
    assert Capture(h) == h[6 + k..];
    assert 6 + k < |h|;
  }

  /** The parse agrees with the pattern: it fails exactly when the pattern
      matches with no count of spaces, and otherwise it is the trimmed
      capture of the match with the most spaces. */
  lemma ParseBearerMatchesPattern(h: string)
    requires h != []
    ensures ParseBearer(Some(h)).None? <==> forall k :: !MatchesWithSpaces(h, k)
    ensures ParseBearer(Some(h)).Some? ==>
      GreediestMatch(h, GreedySpaces(h)) && ParseBearer(Some(h)).value == Trim(Capture(h))
  {
    if IsBearerPrefix(h) {
      var k := GreedySpaces(h);
      forall k' | MatchesWithSpaces(h, k') ensures k >= 1 && NoLineTerminator(Capture(h)) {
        SpacesWithinGreedy(h, k');
        NoLineTerminatorSuffix(h[6 + k'..], k - k');
        SliceOfSlice(h, 6 + k', k - k');
      }
      if ParseBearer(Some(h)).Some? {
        GreedyMatches(h);
        forall k' | k < k' && MatchesWithSpaces(h, k') ensures false {
          SpacesWithinGreedy(h, k');
        }
      }
    }
  }

  /** When the white space runs to the end of the header, the capture is one
      white-space character and the token is empty. */
  lemma ParseBearerBlankCapture(h: string)
    requires IsBearerPrefix(h)
    requires 6 + LeadingSpaces(h[6..]) == |h| && LeadingSpaces(h[6..]) >= 2
    requires !IsLineTerminator(h[|h| - 1])
    ensures ParseBearer(Some(h)) == Some("")
  {
    assert h[|h| - 1..] == [h[|h| - 1]];
  }

  /** A token that starts and ends with a visible character and holds no
      line terminator comes back unchanged from `Bearer` (in any letter case),
      a space and the token. */
  lemma TokenHeaderShape(scheme: string, token: string)
    requires |scheme| == 6 && ToLowerAscii(scheme) == "bearer"
    requires token != [] && !IsJsSpace(token[0])
    ensures IsBearerPrefix(scheme + (" " + token))
    ensures GreedySpaces(scheme + (" " + token)) == 1
    ensures Capture(scheme + (" " + token)) == token
  {
    var after := " " + token;
    var h := scheme + after;
    SplitAt(scheme, after);
    SplitAt(" ", token);
    SliceOfSlice(h, 6, 1);
    assert LeadingSpaces(token) == 0;
    assert LeadingSpaces(after) == 1;
  }

  lemma ParseBearerOfToken(scheme: string, token: string)
    requires |scheme| == 6 && ToLowerAscii(scheme) == "bearer"
    requires token != [] && !IsJsSpace(token[0]) && !IsJsSpace(token[|token| - 1])
    requires NoLineTerminator(token)
    ensures ParseBearer(Some(scheme + " " + token)) == Some(token)
  {
    AppendAssoc(scheme, " ", token);
    TokenHeaderShape(scheme, token);
  }

  lemma BearerSchemeLowered()
    ensures ToLowerAscii("Bearer") == "bearer"
  {
    assert ToLowerAscii("Bearer")[0] == 'b';
  }

  /** `authenticateRequest()`: the request goes on only when the header
      yields a non-empty token listed in the configured tokens. */
  function Authenticate(header: Option<string>, authTokens: seq<string>): AuthOutcome {
    var token := ParseBearer(header);
    if token.None? || token.value == [] || token.value !in authTokens then
      Rejected(UnauthorizedStatus, BadTokenMessage)
    else PassedOn
  }

  /** A request is passed on exactly when the header starts with the scheme,
      the pattern matches with the white space `\s+` keeps, and the trimmed
      capture is a non-empty configured token; every other request gets the
      401 answer and nothing more. */
  lemma AuthenticateDecision(header: Option<string>, authTokens: seq<string>)
    ensures Authenticate(header, authTokens).PassedOn? <==>
      && header.Some? && IsBearerPrefix(header.value)
      && MatchesWithSpaces(header.value, GreedySpaces(header.value))
      && Trim(Capture(header.value)) != []
      && Trim(Capture(header.value)) in authTokens
    ensures Authenticate(header, authTokens).Rejected? ==>
      Authenticate(header, authTokens) == Rejected(401, "Bad auth token")
  {
    if header.Some? && header.value != [] {
      ParseBearerMatchesPattern(header.value);
    }
  }

  /** A configured token sent as `Bearer <token>` is accepted, provided it
      starts and ends with a visible character and holds no line
      terminator; a header that does not start with the scheme is not. */
  lemma AuthenticateConfiguredToken(token: string, authTokens: seq<string>, other: string)
    requires token in authTokens
    requires token != [] && !IsJsSpace(token[0]) && !IsJsSpace(token[|token| - 1])
    requires NoLineTerminator(token)
    requires !IsBearerPrefix(other)
    ensures Authenticate(Some("Bearer " + token), authTokens) == PassedOn
    ensures Authenticate(Some(other), authTokens).Rejected?
  {
    BearerSchemeLowered();
    assert "Bearer " + token == "Bearer" + " " + token;
    ParseBearerOfToken("Bearer", token);
  }
}
