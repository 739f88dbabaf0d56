/**
 * The request handler of api/scores.js.  `Run` composes the stages of the Scores
 * module into the response and the list of upstream requests made; `Handle` is
 * the handler's own step-by-step form, with its locals and early returns, and is
 * proved to agree with `Run`.  The lemmas state the endpoint's behaviour: those
 * about the input in terms of `Run`, those about the lookups and the response in
 * terms of `Resolve`, which `RunFront` connects to `Run`.
 */
module Handler {
  import opened Wrappers
  import opened JsValue
  import opened Text
  import opened Scores

  /** The settings read from the environment; `None` is an unset variable. */
  datatype Env = Env(neynarKey: Option<string>, quotientKey: Option<string>)

  /** An upstream request: the identity lookup, the Neynar score lookup, the quotient lookup. */
  datatype Request =
    | UserLookup(lookup: Lookup)
    | ScoreLookup(fid: Json)
    | QuotientLookup(fid: Json, apiKey: string)

  /** The response sent and the upstream requests issued, in order. */
  datatype Outcome = Outcome(response: Response, calls: seq<Request>)

  /** The identity lookup chosen for a query. */
  function LookupFor(q: Query): Lookup {
    ChooseLookup(Classify(RawInput(q)))
  }

  /** Everything after a user is resolved: the score lookups and the 200 response. */
  function Enrich(resolved: Resolved, quotientKey: Option<string>, fetch: Request -> Upstream, before: seq<Request>): Outcome {
    var scoreReq := ScoreLookup(resolved.fid);
    var neynar := ExtractNeynarScore(fetch(scoreReq));
    var quotient := ExtractQuotient(quotientKey, k => fetch(QuotientLookup(resolved.fid, k)));
    var quotientCalls := if Filled(quotientKey) then [QuotientLookup(resolved.fid, quotientKey.value)] else [];
    Outcome(ComposeResponse(resolved, neynar, quotient, quotientKey), before + [scoreReq] + quotientCalls)
  }

  /** Lines 29-120: the identity lookup and what follows it, for a chosen lookup. */
  function Resolve(lookup: Lookup, quotientKey: Option<string>, fetch: Request -> Upstream): Outcome {
    var userReq := UserLookup(lookup);
    match fetch(userReq)
    case NotOk(t) => Outcome(LookupFailed(t), [userReq])
    case Ok(json) =>
      match ExtractUser(lookup, json)
      case None => Outcome(ServerError, [userReq])
      case Some(user) =>
        if !Found(user) then Outcome(UserNotFound, [userReq])
        else Enrich(BuildResolved(user), quotientKey, fetch, [userReq])
  }

  /** The handler as a composition of its stages; `fetch` answers each upstream request. */
  function Run(q: Query, env: Env, fetch: Request -> Upstream): Outcome {
    match NormalizeInput(q)
    case None => Outcome(MissingInput, [])
    case Some(id) =>
      if !Filled(env.neynarKey) then Outcome(MissingNeynarKey, [])
      else Resolve(ChooseLookup(id), env.quotientKey, fetch)
  }

  /** `Resolve` once a user is found: the 200 path of `Enrich`. */
  lemma ResolveFound(lookup: Lookup, quotientKey: Option<string>, fetch: Request -> Upstream, json: Json, user: Json)
    requires fetch(UserLookup(lookup)) == Ok(json)
    requires ExtractUser(lookup, json) == Some(user) && Found(user)
    ensures Resolve(lookup, quotientKey, fetch) == Enrich(BuildResolved(user), quotientKey, fetch, [UserLookup(lookup)])
  {
  }

  /** `Run` before any lookup: the 400 and 500 answers, or the chosen lookup. */
  lemma RunFront(q: Query, env: Env, fetch: Request -> Upstream)
    ensures RawInput(q) == "" <==> Blank(FirstGiven(q))
    ensures Blank(FirstGiven(q)) ==> Run(q, env, fetch) == Outcome(MissingInput, [])
    ensures !Blank(FirstGiven(q)) && !Filled(env.neynarKey) ==> Run(q, env, fetch) == Outcome(MissingNeynarKey, [])
    ensures !Blank(FirstGiven(q)) && Filled(env.neynarKey) ==> Run(q, env, fetch) == Resolve(LookupFor(q), env.quotientKey, fetch)
  {
  }

  /** Lines 1-124 without the network and the runtime: the handler step by step. */
  method Handle(q: Query, env: Env, fetch: Request -> Upstream) returns (resp: Response, calls: seq<Request>)
    ensures Outcome(resp, calls) == Run(q, env, fetch)
  {
    RunFront(q, env, fetch);
    var input := RawInput(q);
    if input == "" {
      resp, calls := MissingInput, [];
      return;
    }
    if !Filled(env.neynarKey) {
      resp, calls := MissingNeynarKey, [];
      return;
    }
    var id := Classify(input);
    var lookup := ChooseLookup(id);
    assert lookup == LookupFor(q);
    resp, calls := LookUpAndScore(lookup, env.quotientKey, fetch);
  }

  /** Lines 29-120: the identity lookup, the user record, the two scores and the 200 response. */
  method LookUpAndScore(lookup: Lookup, quotientKey: Option<string>, fetch: Request -> Upstream)
    returns (resp: Response, calls: seq<Request>)
    ensures Outcome(resp, calls) == Resolve(lookup, quotientKey, fetch)
  {
    calls := [];
    var userReq := UserLookup(lookup);
    calls := calls + [userReq];
    var userResp := fetch(userReq);
    if userResp.NotOk? {
      resp := LookupFailed(userResp.body);
      return;
    }

    var json := userResp.json;
    if Nullish(json) {
      // `json.users` / `json.result` throws; the catch block answers
      resp := ServerError;
      return;
    }
    var user := Null;
    if lookup.Bulk? {
      user := BulkUser(json);
    } else {
      user := SearchUser(json);
    }
    assert ExtractUser(lookup, json) == Some(user);
    if !Truthy(user) || !Truthy(Prop(user, Fid)) {
      resp := UserNotFound;
      return;
    }
    var resolved := BuildResolved(user);
    ResolveFound(lookup, quotientKey, fetch, json, user);

    var scoreReq := ScoreLookup(resolved.fid);
    calls := calls + [scoreReq];
    var scoreResp := fetch(scoreReq);
    var neynarUserScore := Null;
    if scoreResp.Ok? {
      neynarUserScore := ScoreChain(scoreResp.json);
    }

    var quotientScore, quotientRank := Null, Null;
    var quotientError: Option<string> := None;
    if Filled(quotientKey) {
      var quotientReq := QuotientLookup(resolved.fid, quotientKey.value);
      calls := calls + [quotientReq];
      var quotientResp := fetch(quotientReq);
      if quotientResp.Ok? {
        var row := QuotientRow(quotientResp.json);
        quotientScore := Coalesce(OptProp(row, QuotientScore), Null);
        quotientRank := Coalesce(OptProp(row, QuotientRank), Null);
      } else {
        quotientError := Some(quotientResp.body);
      }
    } else {
      quotientError := Some(MissingQuotientKey);
    }

    assert neynarUserScore == ExtractNeynarScore(scoreResp);
    assert Quotient(quotientScore, quotientRank, quotientError)
        == ExtractQuotient(quotientKey, k => fetch(QuotientLookup(resolved.fid, k)));
    var shownError := if quotientError.Some? && quotientError.value != "" then quotientError else None;
    resp := Response(200, Success(resolved, ScoreSet(neynarUserScore, quotientScore, quotientRank),
      Meta(Filled(quotientKey), shownError)));
  }

  // ---------------------------------------------------------------- before the identity lookup

  /** Lines 4-9: 400 exactly when the first non-empty parameter is blank, and then nothing is fetched. */
  lemma BlankInputRejected(q: Query, env: Env, fetch: Request -> Upstream)
    ensures Run(q, env, fetch).response.status == 400 <==> Blank(FirstGiven(q))
    ensures Blank(FirstGiven(q)) ==> Run(q, env, fetch) == Outcome(MissingInput, [])
  {
    RunFront(q, env, fetch);
    if !Blank(FirstGiven(q)) && Filled(env.neynarKey) {
      ResolveStatus(LookupFor(q), env.quotientKey, fetch);
    }
  }

  /** Line 5: only the first non-empty parameter counts, so a blank `fid` hides a good `username`. */
  lemma BlankFidHidesUsername(u: string, env: Env, fetch: Request -> Upstream)
    ensures Run(Query(Some(" "), Some(u), None), env, fetch) == Outcome(MissingInput, [])
  {
    var q := Query(Some(" "), Some(u), None);
    assert Blank(FirstGiven(q));
    RunFront(q, env, fetch);
  }

  /** Lines 14-16: with a usable input but no Neynar key, 500 and nothing is fetched. */
  lemma MissingNeynarKeyIs500(q: Query, env: Env, fetch: Request -> Upstream)
    requires !Blank(FirstGiven(q)) && !Filled(env.neynarKey)
    ensures Run(q, env, fetch) == Outcome(MissingNeynarKey, [])
  {
    RunFront(q, env, fetch);
  }

  /**
   * Lines 20-27: bulk lookup exactly for an all-digit input that is not all zeros,
   * carrying its decimal value; every other input is searched for.
   */
  lemma BulkIffNonzeroDigits(input: string)
    ensures ChooseLookup(Classify(input)).Bulk? <==> IsDigits(input) && !AllZeros(input)
    ensures ChooseLookup(Classify(input)).Bulk? ==> ChooseLookup(Classify(input)).fid == DecimalValue(input)
  {
    if IsDigits(input) {
      DecimalZeroIff(input);
    }
  }

  /** Lines 21-27: an all-zero fid is falsy, so the search runs for the term "null". */
  lemma ZeroFidSearchesNull(input: string)
    requires IsDigits(input) && AllZeros(input)
    ensures ChooseLookup(Classify(input)) == Search("null")
  {
    DecimalZeroIff(input);
  }

  /** Line 22: the input "@" is not rejected; it searches for the empty username. */
  lemma LoneAtSearchesEmpty()
    ensures NormalizeInput(Query(None, Some("@"), None)) == Some(Identifier(None, Some("")))
    ensures LookupFor(Query(None, Some("@"), None)) == Search("")
  {
    assert "@"[0] == '@' && !IsSpace('@') && !IsDigit('@');
    TrimKeeps("@");
    assert Classify("@") == Identifier(None, Some(""));
  }

  // ---------------------------------------------------------------- the identity lookup and after

  /** Whether the identity answer for `lookup` yields a usable user, as lines 40-55 decide. */
  predicate Resolves(lookup: Lookup, fetch: Request -> Upstream) {
    var resp := fetch(UserLookup(lookup));
    resp.Ok? && !Nullish(resp.json) && Found(OrNull(FirstMatch(resp.json, ShapesFor(lookup))))
  }

  /** Every status `Resolve` answers with, and 200 exactly when a user is found. */
  lemma ResolveStatus(lookup: Lookup, quotientKey: Option<string>, fetch: Request -> Upstream)
    ensures Resolve(lookup, quotientKey, fetch).response.status in {200, 404, 500, 502}
    ensures Resolve(lookup, quotientKey, fetch).response.status == 200 <==> Resolves(lookup, fetch)
    ensures Resolve(lookup, quotientKey, fetch).response.body.Success? <==> Resolves(lookup, fetch)
  {
  }

  /**
   * Lines 33-36: a non-ok identity response gives 502 with its body text as the
   * detail, and nothing after the identity lookup is requested; no other case
   * gives 502.
   */
  lemma IdentityFailureIs502(lookup: Lookup, quotientKey: Option<string>, fetch: Request -> Upstream)
    ensures fetch(UserLookup(lookup)).NotOk? ==>
      Resolve(lookup, quotientKey, fetch) ==
        Outcome(Response(502, Failure("Neynar user lookup failed", BodyText(fetch(UserLookup(lookup)).body))),
                [UserLookup(lookup)])
    ensures Resolve(lookup, quotientKey, fetch).response.status == 502 <==> fetch(UserLookup(lookup)).NotOk?
  {
  }

  /**
   * Lines 44, 48 and 122: an identity body that is JSON `null` makes `json.users`
   * (bulk) or `json.result` (search) throw, answered with 500.
   */
  lemma NullBodyIsServerError(lookup: Lookup, quotientKey: Option<string>, fetch: Request -> Upstream)
    requires fetch(UserLookup(lookup)) == Ok(Null)
    ensures Resolve(lookup, quotientKey, fetch) == Outcome(ServerError, [UserLookup(lookup)])
  {
  }

  /**
   * Lines 53-55: an ok identity body whose extracted user is null or has a falsy
   * `fid` gives 404, with only the identity lookup made.
   */
  lemma MissingUserIs404(lookup: Lookup, quotientKey: Option<string>, fetch: Request -> Upstream)
    requires fetch(UserLookup(lookup)).Ok? && !Nullish(fetch(UserLookup(lookup)).json)
    requires !Resolves(lookup, fetch)
    ensures Resolve(lookup, quotientKey, fetch) == Outcome(UserNotFound, [UserLookup(lookup)])
  {
  }

  /**
   * Lines 40-62: once a user is found, `resolved` is built from the first match
   * among the shapes of the lookup: `users[0]` for bulk, `result.users[0]` then
   * `users[0]` for search.
   */
  lemma ResolvedFromShapes(lookup: Lookup, quotientKey: Option<string>, fetch: Request -> Upstream)
    requires Resolves(lookup, fetch)
    ensures var user := OrNull(FirstMatch(fetch(UserLookup(lookup)).json, ShapesFor(lookup)));
      Resolve(lookup, quotientKey, fetch).response.body.resolved == BuildResolved(user)
  {
  }

  /**
   * Lines 29-106: the requests made.  Only the identity lookup unless a user is
   * found; then also the Neynar score lookup and, with a quotient key, the
   * quotient lookup, both for the resolved fid.
   */
  lemma CallsMade(lookup: Lookup, quotientKey: Option<string>, fetch: Request -> Upstream)
    ensures var o := Resolve(lookup, quotientKey, fetch);
      (!Resolves(lookup, fetch) ==> o.calls == [UserLookup(lookup)])
      && (Resolves(lookup, fetch) ==>
            var fid := o.response.body.resolved.fid;
            o.calls == [UserLookup(lookup), ScoreLookup(fid)]
                       + (if Filled(quotientKey) then [QuotientLookup(fid, quotientKey.value)] else []))
  {
  }

  /**
   * Lines 71-79: the Neynar score is the first defined of `score`, `user_score`
   * and `result.score`, or null when the score response is not ok; the status
   * stays 200 either way.
   */
  lemma NeynarScoreOutcome(lookup: Lookup, quotientKey: Option<string>, fetch: Request -> Upstream)
    requires Resolves(lookup, fetch)
    ensures var r := Resolve(lookup, quotientKey, fetch).response;
      var scoreResp := fetch(ScoreLookup(r.body.resolved.fid));
      r.status == 200
      && (scoreResp.NotOk? ==> r.body.scores.neynarUserScore == Null)
      && (scoreResp.Ok? ==> r.body.scores.neynarUserScore == FirstDefined(scoreResp.json, ScorePaths))
  {
  }

  /** Line 75: a score of 0 survives, since `??` keeps defined falsy values. */
  lemma ZeroScoreKept(j: Json)
    requires OptProp(j, Score) == Num(0.0)
    ensures ExtractNeynarScore(Ok(j)) == Num(0.0)
  {
    FirstDefinedPicks(j, ScorePaths, 0);
  }

  /** Lines 75-77: `user_score` is read only when `score` is null or missing. */
  lemma UserScoreFallback(j: Json)
    requires Nullish(OptProp(j, Score)) && !Nullish(OptProp(j, UserScore))
    ensures ExtractNeynarScore(Ok(j)) == OptProp(j, UserScore)
  {
    FirstDefinedPicks(j, ScorePaths, 1);
  }

  /** Lines 74-78: an ok score answer without `score`, `user_score` and `result` yields null. */
  lemma AbsentScoreIsNull(j: Json)
    requires Nullish(OptProp(j, Score)) && Nullish(OptProp(j, UserScore)) && Nullish(OptProp(j, Result))
    ensures ExtractNeynarScore(Ok(j)) == Null
  {
    OptPathShortCircuits(OptProp(j, Result), [Score]);
    assert OptPath(j, [Result, Score]) == OptPath(OptProp(j, Result), [Score]);
    FirstDefinedNone(j, ScorePaths);
  }

  /**
   * Lines 86-106 and 117-118: the quotient fields and the meta block, for each of
   * no key, a non-ok response and an ok response.
   */
  lemma QuotientOutcome(lookup: Lookup, quotientKey: Option<string>, fetch: Request -> Upstream)
    requires Resolves(lookup, fetch)
    ensures var r := Resolve(lookup, quotientKey, fetch).response;
      var s := r.body.scores;
      var m := r.body.meta;
      m.quotientEnabled == Filled(quotientKey)
      && (!Filled(quotientKey) ==>
            s.quotientScore == Null && s.quotientRank == Null && m.quotientError == Some(MissingQuotientKey))
      && (Filled(quotientKey) ==>
            var qr := fetch(QuotientLookup(r.body.resolved.fid, quotientKey.value));
            (qr.NotOk? ==> s.quotientScore == Null && s.quotientRank == Null
                           && m.quotientError == (if qr.body == "" then None else Some(qr.body)))
            && (qr.Ok? ==> m.quotientError.None?
                           && s.quotientScore == FirstDefined(QuotientRow(qr.json), [[QuotientScore]])
                           && s.quotientRank == FirstDefined(QuotientRow(qr.json), [[QuotientRank]])))
  {
  }

  /**
   * Lines 82-120: a quotient answer that arrives, ok with a parsed body or not
   * ok with a text, never decides the outcome.  With the same lookup and the
   * same answers to the non-quotient requests, any quotient key and any such
   * quotient answers give the same status, the same resolved user and the same
   * Neynar score.  A quotient request that fails outright, or an ok answer whose
   * body does not parse, throws into the catch block instead (lines 121-122);
   * `Upstream` does not represent those.
   */
  lemma QuotientNeverFatal(lookup: Lookup, key1: Option<string>, key2: Option<string>,
                           fetch1: Request -> Upstream, fetch2: Request -> Upstream)
    requires forall r: Request | !r.QuotientLookup? :: fetch1(r) == fetch2(r)
    ensures var a, b := Resolve(lookup, key1, fetch1).response, Resolve(lookup, key2, fetch2).response;
      a.status == b.status
      && (a.status == 200 ==>
            b.body.resolved == a.body.resolved
            && b.body.scores.neynarUserScore == a.body.scores.neynarUserScore)
  {
    assert fetch1(UserLookup(lookup)) == fetch2(UserLookup(lookup));
    if Resolves(lookup, fetch1) {
      var fid := Resolve(lookup, key1, fetch1).response.body.resolved.fid;
      assert fetch1(ScoreLookup(fid)) == fetch2(ScoreLookup(fid));
    }
  }

  /** Lines 108-120: no field of a successful response is undefined, so none is dropped from the JSON. */
  lemma SuccessFieldsDefined(lookup: Lookup, quotientKey: Option<string>, fetch: Request -> Upstream)
    requires Resolves(lookup, fetch)
    ensures var b := Resolve(lookup, quotientKey, fetch).response.body;
      b.resolved.fid != Undefined && b.resolved.username != Undefined
      && b.resolved.displayName != Undefined && b.resolved.pfpUrl != Undefined
      && b.scores.neynarUserScore != Undefined
      && b.scores.quotientScore != Undefined && b.scores.quotientRank != Undefined
  {
  }

  // ---------------------------------------------------------------- one whole request

  /**
   * Sample answers of the upstream services: the identity lookup yields one
   * user, "alice" with fid 123; the Neynar score is 0.8; the quotient service
   * answers not ok.
   */
  function AliceService(r: Request): Upstream {
    match r
    case UserLookup(_) => Ok(Obj(map["users" := Arr([Obj(map["fid" := Num(123.0), "username" := Str("alice")])])]))
    case ScoreLookup(_) => Ok(Obj(map["score" := Num(0.8)]))
    case QuotientLookup(_, _) => NotOk("unavailable")
  }

  /** A `fid` parameter of nonzero digits passes the input checks and selects the bulk lookup of its value. */
  lemma DigitsSelectBulk(d: string)
    requires IsDigits(d) && !AllZeros(d)
    ensures !Blank(FirstGiven(Query(Some(d), None, None)))
    ensures LookupFor(Query(Some(d), None, None)) == Bulk(DecimalValue(d))
  {
    TrimKeeps(d);
    BulkIffNonzeroDigits(d);
  }

  /** Lines 20-22: `Number("123")` is 123. */
  lemma Decimal123()
    ensures IsDigits("123") && !AllZeros("123") && DecimalValue("123") == 123
  {
    assert "123"[..2] == "12" && "12"[..1] == "1" && "1"[..0] == "";
    assert "123"[0] != '0';
  }

  /** The record alice of `AliceService` resolves with her fid and username and no other field. */
  lemma AliceRecord(user: Json, json: Json)
    requires user == Obj(map["fid" := Num(123.0), "username" := Str("alice")])
    requires json == Obj(map["users" := Arr([user])])
    ensures ExtractUser(Bulk(123), json) == Some(user) && Found(user)
    ensures BuildResolved(user) == Resolved(Num(123.0), Str("alice"), Null, Null)
  {
    assert Prop(json, Users) == Arr([user]);
    assert Prop(user, Fid) == Num(123.0);
    assert Prop(user, Username) == Str("alice");
    assert Prop(user, DisplayName) == Undefined;
    assert Prop(user, PfpUrl) == Undefined;
  }

  /** The score answer of `AliceService` yields 0.8. */
  lemma AliceScore()
    ensures ExtractNeynarScore(AliceService(ScoreLookup(Num(123.0)))) == Num(0.8)
  {
    assert OptProp(Obj(map["score" := Num(0.8)]), Score) == Num(0.8);
  }

  /** After the bulk lookup of fid 123, `AliceService` yields alice, 0.8 and no quotient source. */
  lemma AliceResolved()
    ensures Resolve(Bulk(123), None, AliceService)
      == Outcome(
           Response(200, Success(
             Resolved(Num(123.0), Str("alice"), Null, Null),
             ScoreSet(Num(0.8), Null, Null),
             Meta(false, Some(MissingQuotientKey)))),
           [UserLookup(Bulk(123)), ScoreLookup(Num(123.0))])
  {
    var user := Obj(map["fid" := Num(123.0), "username" := Str("alice")]);
    var json := Obj(map["users" := Arr([user])]);
    AliceRecord(user, json);
    ResolveFound(Bulk(123), None, AliceService, json, user);
    AliceScore();
  }

  /**
   * One whole request: `?fid=123` with a Neynar key and no quotient key resolves
   * alice with score 0.8 and reports the quotient source as not configured.
   */
  lemma AliceByFid()
    ensures Run(Query(Some("123"), None, None), Env(Some("key"), None), AliceService)
      == Outcome(
           Response(200, Success(
             Resolved(Num(123.0), Str("alice"), Null, Null),
             ScoreSet(Num(0.8), Null, Null),
             Meta(false, Some(MissingQuotientKey)))),
           [UserLookup(Bulk(123)), ScoreLookup(Num(123.0))])
  {
    Decimal123();
    DigitsSelectBulk("123");
    RunFront(Query(Some("123"), None, None), Env(Some("key"), None), AliceService);
    AliceResolved();
  }
}
