/**
 * The deterministic core of the score endpoint: normalising the caller's
 * identifier, choosing the identity lookup, extracting the user record from the
 * identity service's JSON, reading the two reputation scores, and composing the
 * response.  Upstream responses arrive as values: not ok with a body text, or ok
 * with parsed JSON.
 */
module Scores {
  import opened Wrappers
  import opened JsValue
  import opened Text

  // ---------------------------------------------------------------- input

  /** The query parameters the handler reads; `None` is an absent parameter. */
  datatype Query = Query(fid: Option<string>, username: Option<string>, user: Option<string>)

  /**
   * An optional string JavaScript treats as true: present and non-empty.  This
   * is what `||` accepts of a query parameter (line 5) and what `if (key)`
   * accepts of a setting (lines 14, 86, 117).
   */
  predicate Filled(p: Option<string>) {
    p.Some? && p.value != ""
  }

  /** `q.fid || q.username || q.user || ""`. */
  function FirstGiven(q: Query): string {
    if Filled(q.fid) then q.fid.value
    else if Filled(q.username) then q.username.value
    else if Filled(q.user) then q.user.value
    else ""
  }

  /** The trimmed input the rest of the handler works on. */
  function RawInput(q: Query): string {
    Trim(FirstGiven(q))
  }

  /** The classified identifier: a numeric fid, or a username. */
  datatype Identifier = Identifier(fid: Option<nat>, username: Option<string>)

  /** Lines 20-22: all digits make a fid; anything else is a username without one leading `@`. */
  function Classify(input: string): (id: Identifier)
    ensures id.fid.Some? <==> IsDigits(input)
    ensures id.fid.Some? <==> id.username.None?
    ensures id.fid.Some? ==> id.fid.value == DecimalValue(input)
    ensures id.username.Some? ==> input == id.username.value || input == ['@'] + id.username.value
    ensures id.username.Some? && |input| > 0 && input[0] == '@' ==> id.username.value == input[1..]
  {
    if IsDigits(input) then Identifier(Some(DecimalValue(input)), None)
    else Identifier(None, Some(StripAt(input)))
  }

  /** Lines 4-9 and 20-22: `None` when the trimmed input is empty, which line 7 rejects. */
  function NormalizeInput(q: Query): (r: Option<Identifier>)
    ensures r.None? <==> Blank(FirstGiven(q))
    ensures r.Some? ==> r.value == Classify(RawInput(q))
  {
    var input := RawInput(q);
    if input == "" then None else Some(Classify(input))
  }

  // ---------------------------------------------------------------- identity lookup

  /** Which identity endpoint is called: bulk lookup by fid, or search by a term. */
  datatype Lookup = Bulk(fid: nat) | Search(term: string)

  /**
   * Lines 25-27: a truthy fid (a nonzero number) selects bulk lookup.  Otherwise
   * search is used with the username, and `encodeURIComponent(null)` makes the
   * term `"null"` when the input was the fid 0.
   */
  function ChooseLookup(id: Identifier): (l: Lookup)
    ensures l.Bulk? <==> id.fid.Some? && id.fid.value != 0
    ensures l.Bulk? ==> l.fid == id.fid.value
    ensures l.Search? && id.username.Some? ==> l.term == id.username.value
    ensures l.Search? && id.username.None? ==> l.term == "null"
  {
    if id.fid.Some? && id.fid.value != 0 then Bulk(id.fid.value)
    else if id.username.Some? then Search(id.username.value)
    else Search("null")
  }

  /** One upstream HTTP response: `resp.ok` false with `resp.text()`, or true with `resp.json()`. */
  datatype Upstream = NotOk(body: string) | Ok(json: Json)

  // ---------------------------------------------------------------- user extraction

  /**
   * Follows `path` from `v`, stepping into a property only from a truthy value,
   * the way the guards `a && a.b && ...` do; `None` when a step is falsy.
   */
  function Follow(v: Json, path: seq<Key>): Option<Json>
    decreases |path|
  {
    if path == [] then Some(v)
    else if !Truthy(v) then None
    else Follow(Prop(v, path[0]), path[1..])
  }

  /** One extraction strategy: the first element of the list at `path`, when it is truthy. */
  function Attempt(v: Json, path: seq<Key>): Option<Json> {
    match Follow(v, path)
    case None => None
    case Some(list) => if Truthy(list) && Truthy(Index0(list)) then Some(Index0(list)) else None
  }

  /** The first strategy, in priority order, that finds something. */
  function FirstMatch(v: Json, paths: seq<seq<Key>>): Option<Json>
    decreases |paths|
  {
    if paths == [] then None
    else match Attempt(v, paths[0])
      case Some(u) => Some(u)
      case None => FirstMatch(v, paths[1..])
  }

  function OrNull(o: Option<Json>): Json {
    match o
    case Some(u) => u
    case None => Null
  }

  /** The shapes tried for each lookup: bulk `{users}`, search `{result: {users}}` then `{users}`. */
  function ShapesFor(l: Lookup): seq<seq<Key>> {
    match l
    case Bulk(_) => [[Users]]
    case Search(_) => [[Result, Users], [Users]]
  }

  /** Line 44: `(json.users && json.users[0]) || null`. */
  function BulkUser(json: Json): (user: Json)
    requires !Nullish(json)
    ensures user == OrNull(FirstMatch(json, [[Users]]))
  {
    var users := Prop(json, Users);
    Or(if Truthy(users) then Index0(users) else users, Null)
  }

  /** Lines 47-50: `(json.result && json.result.users && json.result.users[0]) || (json.users && json.users[0]) || null`. */
  function SearchUser(json: Json): (user: Json)
    requires !Nullish(json)
    ensures user == OrNull(FirstMatch(json, [[Result, Users], [Users]]))
  {
    var result := Prop(json, Result);
    var nested :=
      if Truthy(result) then
        var list := Prop(result, Users);
        if Truthy(list) then Index0(list) else list
      else result;
    var users := Prop(json, Users);
    var top := if Truthy(users) then Index0(users) else users;
    Or(Or(nested, top), Null)
  }

  /**
   * Lines 40-51: the user record for the chosen lookup, or null.  `None` stands
   * for the TypeError that `json.users` (or `json.result`) throws when the body
   * is null.
   */
  function ExtractUser(l: Lookup, json: Json): (user: Option<Json>)
    ensures user.None? <==> Nullish(json)
    ensures user.Some? ==> user.value == OrNull(FirstMatch(json, ShapesFor(l)))
    ensures user.Some? ==> user.value == Null || Truthy(user.value)
  {
    if Nullish(json) then None
    else if l.Bulk? then Some(BulkUser(json))
    else Some(SearchUser(json))
  }

  /** Line 53: a usable user is truthy with a truthy `fid`. */
  predicate Found(user: Json) {
    Truthy(user) && Truthy(Prop(user, Fid))
  }

  /** The `resolved` record of the response. */
  datatype Resolved = Resolved(fid: Json, username: Json, displayName: Json, pfpUrl: Json)

  /** A field after `|| null`: truthy, or null. */
  predicate TruthyOrNull(v: Json) {
    Truthy(v) || v == Null
  }

  /** Lines 57-62: `fid` carried over, the three other fields `|| null`. */
  function BuildResolved(user: Json): (r: Resolved)
    requires Found(user)
    ensures r.fid == Prop(user, Fid) && Truthy(r.fid)
    ensures TruthyOrNull(r.username) && TruthyOrNull(r.displayName) && TruthyOrNull(r.pfpUrl)
    ensures r.username == (if Truthy(Prop(user, Username)) then Prop(user, Username) else Null)
    ensures r.displayName == (if Truthy(Prop(user, DisplayName)) then Prop(user, DisplayName) else Null)
    ensures r.pfpUrl == (if Truthy(Prop(user, PfpUrl)) then Prop(user, PfpUrl) else Null)
  {
    Resolved(
      Prop(user, Fid),
      Or(Prop(user, Username), Null),
      Or(Prop(user, DisplayName), Null),
      Or(Prop(user, PfpUrl), Null))
  }

  // ---------------------------------------------------------------- scores

  /** The value of the first path whose optional chain is not nullish, else null. */
  function FirstDefined(v: Json, paths: seq<seq<Key>>): (r: Json)
    decreases |paths|
  {
    if paths == [] then Null
    else if !Nullish(OptPath(v, paths[0])) then OptPath(v, paths[0])
    else FirstDefined(v, paths[1..])
  }

  /** `FirstDefined` picks path `k` when every earlier path is nullish and `k` is not. */
  lemma {:induction false} FirstDefinedPicks(v: Json, paths: seq<seq<Key>>, k: nat)
    requires k < |paths| && !Nullish(OptPath(v, paths[k]))
    requires forall i | 0 <= i < k :: Nullish(OptPath(v, paths[i]))
    ensures FirstDefined(v, paths) == OptPath(v, paths[k])
    decreases k
  {
    if k > 0 {
      assert Nullish(OptPath(v, paths[0]));
      assert forall i | 0 <= i < k - 1 :: paths[1..][i] == paths[i + 1];
      FirstDefinedPicks(v, paths[1..], k - 1);
    }
  }

  /** `FirstDefined` is null when every path is nullish. */
  lemma {:induction false} FirstDefinedNone(v: Json, paths: seq<seq<Key>>)
    requires forall i | 0 <= i < |paths| :: Nullish(OptPath(v, paths[i]))
    ensures FirstDefined(v, paths) == Null
    decreases |paths|
  {
    if paths != [] {
      assert Nullish(OptPath(v, paths[0]));
      assert forall i | 0 <= i < |paths| - 1 :: paths[1..][i] == paths[i + 1];
      FirstDefinedNone(v, paths[1..]);
    }
  }

  /** The paths of lines 75-77, most preferred first. */
  const ScorePaths: seq<seq<Key>> := [[Score], [UserScore], [Result, Score]]

  /** Lines 74-78: `j?.score ?? j?.user_score ?? j?.result?.score ?? null`. */
  function ScoreChain(j: Json): (score: Json)
    ensures score == FirstDefined(j, ScorePaths)
  {
    Coalesce(Coalesce(Coalesce(OptProp(j, Score), OptProp(j, UserScore)), OptProp(OptProp(j, Result), Score)), Null)
  }

  /** Lines 71-79: the Neynar score, null unless the score response is ok; never coerced. */
  function ExtractNeynarScore(resp: Upstream): (score: Json)
    ensures resp.NotOk? ==> score == Null
    ensures resp.Ok? ==> score == FirstDefined(resp.json, ScorePaths)
    ensures score != Undefined
  {
    if resp.Ok? then ScoreChain(resp.json) else Null
  }

  /** Line 105. */
  const MissingQuotientKey := "Missing env: QUOTIENT_API_KEY (optional)"

  /** The quotient locals of lines 82-84 after line 106. */
  datatype Quotient = Quotient(score: Json, rank: Json, error: Option<string>)

  /** Line 98: `qj?.data?.[0] || null`. */
  function QuotientRow(qj: Json): (row: Json)
    ensures row == OrNull(Attempt(qj, [Data]))
  {
    Or(OptIndex0(OptProp(qj, Data)), Null)
  }

  /**
   * Lines 82-106.  `respond(k)` is the quotient service's answer to the request
   * carrying the API key `k`; it is consulted only when the key is set.
   */
  function ExtractQuotient(key: Option<string>, respond: string -> Upstream): (r: Quotient)
    ensures !Filled(key) ==> r == Quotient(Null, Null, Some(MissingQuotientKey))
    ensures Filled(key) && respond(key.value).NotOk? ==> r == Quotient(Null, Null, Some(respond(key.value).body))
    ensures Filled(key) && respond(key.value).Ok? ==>
      var row := QuotientRow(respond(key.value).json);
      r.error.None?
      && r.score == FirstDefined(row, [[QuotientScore]])
      && r.rank == FirstDefined(row, [[QuotientRank]])
    ensures r.score != Undefined && r.rank != Undefined
    ensures r.error.Some? ==> r.score == Null && r.rank == Null
  {
    if !Filled(key) then Quotient(Null, Null, Some(MissingQuotientKey))
    else match respond(key.value)
      case NotOk(t) => Quotient(Null, Null, Some(t))
      case Ok(qj) =>
        var row := QuotientRow(qj);
        Quotient(Coalesce(OptProp(row, QuotientScore), Null), Coalesce(OptProp(row, QuotientRank), Null), None)
  }

  // ---------------------------------------------------------------- response

  datatype ScoreSet = ScoreSet(neynarUserScore: Json, quotientScore: Json, quotientRank: Json)

  datatype Meta = Meta(quotientEnabled: bool, quotientError: Option<string>)

  /** The `detail` of an error body: absent, a text, or the message of a thrown exception. */
  datatype Detail = NoDetail | BodyText(text: string) | RuntimeMessage

  /** An error body `{error, detail?}`, or the success body `{ok: true, resolved, scores, meta}`. */
  datatype Body =
    | Failure(error: string, detail: Detail)
    | Success(resolved: Resolved, scores: ScoreSet, meta: Meta)

  datatype Response = Response(status: nat, body: Body)

  /** Line 8. */
  const MissingInput := Response(400, Failure("Missing query: fid or username", NoDetail))

  /** Line 15. */
  const MissingNeynarKey := Response(500, Failure("Missing env: NEYNAR_API_KEY", NoDetail))

  /** Line 35: always 502, whatever status the identity service answered with. */
  function LookupFailed(t: string): Response {
    Response(502, Failure("Neynar user lookup failed", BodyText(t)))
  }

  /** Line 54. */
  const UserNotFound := Response(404, Failure("User not found", NoDetail))

  /** Line 122, reached from the TypeError of a null identity body. */
  const ServerError := Response(500, Failure("Server error", RuntimeMessage))

  /** Lines 108-120: always 200 and `ok: true` once a user is resolved. */
  function ComposeResponse(resolved: Resolved, neynarScore: Json, quotient: Quotient, quotientKey: Option<string>): (r: Response)
    ensures r.status == 200 && r.body.Success?
    ensures r.body.resolved == resolved
    ensures r.body.scores == ScoreSet(neynarScore, quotient.score, quotient.rank)
    ensures r.body.meta.quotientEnabled == Filled(quotientKey)
    ensures r.body.meta.quotientError.None? <==> quotient.error.None? || quotient.error.value == ""
    ensures r.body.meta.quotientError.Some? ==> r.body.meta.quotientError == quotient.error
  {
    var error := if quotient.error.Some? && quotient.error.value != "" then quotient.error else None;
    Response(200, Success(resolved, ScoreSet(neynarScore, quotient.score, quotient.rank), Meta(Filled(quotientKey), error)))
  }
}
