# nqscore score endpoint, modelled in Dafny

`api/scores.js` is a serverless HTTP handler. It takes a Farcaster `fid` or
username from the query string and resolves the user through Neynar's
identity service. It then reads two reputation scores: the Neynar user score,
and, when an API key is configured, the Quotient reputation score. It answers
with one JSON body.

This project models the deterministic core of that handler and proves what the
core promises. Each upstream HTTP answer is an input value: not ok with a body
text, or ok with parsed JSON.

- `wrappers.dfy` (`Wrappers`): the `Option` type. It stands for absent query
  parameters, absent settings and the `x || null` results.
- `jsvalue.dfy` (`JsValue`): JavaScript values as `JSON.parse` produces them,
  plus `undefined`. The module gives truthiness (`Truthy`), nullishness
  (`Nullish`), `||` (`Or`), `??` (`Coalesce`), property access (`Prop`,
  `Index0`) and optional chaining (`OptProp`, `OptPath`). Where `||` and `??`
  part ways (`0`, `""`, `false`) is stated as lemmas.
- `text.dfy` (`Text`): the string operations on the input. These are `trim`
  with ECMAScript's white-space set, the test `/^\d+$/`, `Number` on a digit
  string, and the one leading `@` that is stripped.
- `scores.dfy` (`Scores`): the stages as pure functions:
  - input normalisation and classification;
  - the choice between bulk lookup and search;
  - user extraction across the JSON shapes, and the `resolved` record;
  - the `??` score chains;
  - the quotient block;
  - the response bodies.
- `handler.dfy` (`Handler`):
  - `Run` and `Resolve` compose the stages into the response and the list of
    upstream requests made. `fetch` is a parameter that answers each request.
  - `Handle` and `LookUpAndScore` are the handler's own step-by-step form, with
    its reassigned locals and early returns. They are proved equal to `Run` and
    `Resolve`.
  - The lemmas state the endpoint's behaviour as the source promises it.

The endpoint was designed to behave more strictly than `api/scores.js`
does. Where the two differ, the model follows the code:
- A failed identity lookup is meant to pass the identity service's status on.
  The code always answers 502 (line 35).
- A username that is empty once its `@` is stripped is meant to be rejected
  with 400. The code searches for the empty username (line 22).
- A `fid` parameter that is not all digits is meant to be rejected with 400.
  The code treats it as a username and searches for it (lines 20-22).
- Scores are meant to be converted to numbers, with non-finite values becoming
  null. The code passes them through as the upstream sends them (lines 74-78,
  99-100).
- The fid `0` is falsy. It therefore takes the search branch, with the term
  `"null"` that `encodeURIComponent(null)` produces (lines 21, 25-27).
- A user record whose `fid` is missing or falsy is meant to be a failure of its
  own. The code gives it the same 404 as a missing user (line 53).
- A JSON `null` identity body makes `json.users` (bulk lookup, line 44) or
  `json.result` (search, line 48) throw. The catch block answers it with 500
  "Server error" (line 122).
- The quotient row is meant to be the row for the requested fid. The code takes
  `data[0]` whatever its fid (line 98).
- A failed quotient request is meant to be recorded in `meta.quotientError`.
  The code records a not-ok answer's body text, which gives `quotientError:
  null` when that body is empty (lines 102, 118).
- The quotient source is meant never to be fatal. In the code, a quotient
  request that fails outright, or an ok quotient answer whose body does not
  parse, throws into the catch block and gives 500 (lines 87, 97, 121-122).
  Only quotient answers that arrive, and parse when ok, leave the outcome
  alone.

## Model

| member | source | states |
|---|---|---|
| Text.IsSpace | api/scores.js:5 | reference definition: the code points `trim` removes (ECMAScript WhiteSpace and LineTerminator) |
| Text.LeadingSpaces | api/scores.js:5 | the count is the length of the longest all-white-space prefix: those characters are white space and the next one is not |
| Text.TrailingSpaces | api/scores.js:5 | the count is the length of the longest all-white-space suffix: those characters are white space and the one before is not |
| Text.Trim | api/scores.js:5 | `trim` is the slice of the input after its longest white-space prefix, with everything cut off both ends white space; it is empty exactly for an all-white-space string, and otherwise neither end is white space |
| Text.TrimIdempotent | api/scores.js:5 | trimming twice equals trimming once |
| Text.TrimKeeps | api/scores.js:5 | a string with no white space at either end is unchanged by `trim` |
| Text.IsDigits | api/scores.js:20 | reference definition of `/^\d+$/`: non-empty and all decimal digits |
| Text.DecimalValue | api/scores.js:21 | reference definition of `Number` on a digit string: the exact decimal value |
| Text.DecimalZeroIff | api/scores.js:21 | a digit string's decimal value is 0 exactly when every digit is `0` |
| Text.StripAt | api/scores.js:22 | exactly one leading `@` is removed when present, and nothing else changes |
| JsValue.Nullish | api/scores.js:75-77 | reference definition: what `??` and `?.` treat as missing, null and undefined |
| JsValue.Truthy | api/scores.js:44-61 | reference definition of JavaScript truthiness on JSON values: false, 0, `""`, null and undefined are falsy |
| JsValue.Or | api/scores.js:44-61 | reference definition of logical or: the left operand when truthy, else the right |
| JsValue.Coalesce | api/scores.js:74-78 | reference definition of `??`: the left operand unless it is nullish |
| JsValue.Prop | api/scores.js:44-61 | reference definition of `v.k` on a non-nullish value: an object's own key, else undefined |
| JsValue.Index0 | api/scores.js:44 | reference definition of `v[0]` on a non-nullish value |
| JsValue.OptProp | api/scores.js:75-77 | reference definition of `v?.k`: undefined on a nullish base |
| JsValue.OptIndex0 | api/scores.js:98 | reference definition of `v?.[0]`: undefined on a nullish base, else `v[0]` |
| JsValue.OptPath | api/scores.js:77 | reference definition of an all-optional chain `v?.k1?.k2` |
| JsValue.FalsyDefinedValues | api/scores.js:44-61 | the defined values that logical or treats as missing are exactly `false`, `0` and `""` |
| JsValue.OrCoalesceDiffer | api/scores.js:74-78 | logical or and `??` differ exactly when `a` is a defined falsy value other than `b` |
| JsValue.OptPathShortCircuits | api/scores.js:75-77 | an optional chain that meets null or undefined yields undefined for the rest of the path |
| JsValue.OptionalChainMatchesGuard | api/scores.js:98 | once null replaces a falsy result, `v?.k` agrees with the guard `v && v.k` |
| Scores.FirstGiven | api/scores.js:5 | reference definition of line 5's fallback: the first truthy of `q.fid`, `q.username` and `q.user`, else the empty string |
| Scores.Filled | api/scores.js:5 | reference definition of a truthy optional string, used for the parameters (line 5) and the keys (lines 14, 86, 117) |
| Scores.RawInput | api/scores.js:5 | reference definition of line 5's `(...).toString().trim()`: the trimmed first truthy parameter |
| Scores.Classify | api/scores.js:20-22 | a fid exactly for an all-digit input, equal to its decimal value; otherwise a username equal to the input with one leading `@` removed; exactly one of the two is set |
| Scores.NormalizeInput | api/scores.js:4-9 | `None` exactly when the first non-empty of `fid`, `username`, `user` is blank; otherwise the classification of the trimmed input |
| Scores.ChooseLookup | api/scores.js:25-27 | bulk lookup exactly for a nonzero fid, carrying that fid; otherwise search with the username, or with `"null"` when there is none |
| Scores.Follow | api/scores.js:44-49 | reference definition of a guarded walk `a && a.b && ...`: it stops at the first falsy step |
| Scores.Attempt | api/scores.js:44-49 | reference definition of one extraction shape: a truthy first element of a truthy list at the path |
| Scores.FirstMatch | api/scores.js:47-50 | reference definition of the ordered fallback between shapes |
| Scores.ShapesFor | api/scores.js:42-51 | reference definition of the shapes tried for each lookup: `users` for bulk, `result.users` then `users` for search |
| Scores.BulkUser | api/scores.js:44 | the bulk user is the first truthy element of a truthy `users`, else null |
| Scores.SearchUser | api/scores.js:47-50 | the search user is the first match among `result.users[0]` and then `users[0]`, else null |
| Scores.ExtractUser | api/scores.js:40-51 | a user exactly when the body is not null (a null body throws); the user is the first shape that matches for the lookup, and is null or truthy |
| Scores.Found | api/scores.js:53 | reference definition of `user && user.fid` |
| Scores.BuildResolved | api/scores.js:57-62 | `fid` is the user's (truthy) fid; `username`, `displayName` and `pfpUrl` are the source field when truthy and null otherwise |
| Scores.FirstDefined | api/scores.js:74-78 | reference definition of an ordered `??` chain over optional paths ending in `?? null` |
| Scores.FirstDefinedPicks | api/scores.js:74-78 | a `??` chain yields the first path whose value is not nullish |
| Scores.FirstDefinedNone | api/scores.js:74-78 | a `??` chain ending in `?? null` yields null when every path is nullish |
| Scores.ScoreChain | api/scores.js:74-78 | `j?.score ?? j?.user_score ?? j?.result?.score ?? null` is the first defined of the three paths |
| Scores.ExtractNeynarScore | api/scores.js:71-79 | null for a non-ok score response; otherwise the first defined of `score`, `user_score`, `result.score`; never undefined |
| Scores.QuotientRow | api/scores.js:98 | the row is a truthy `data[0]`, else null |
| Scores.ExtractQuotient | api/scores.js:82-106 | no key: both null with the "optional" message; non-ok: both null with the body text as the error; ok: no error, with score and rank equal to `row.quotientScore ?? null` and `row.quotientRank ?? null`; an error always leaves both null |
| Scores.MissingInput | api/scores.js:8 | reference definition of the 400 response `{error: "Missing query: fid or username"}` |
| Scores.MissingNeynarKey | api/scores.js:15 | reference definition of the 500 response `{error: "Missing env: NEYNAR_API_KEY"}` |
| Scores.LookupFailed | api/scores.js:35 | reference definition of the 502 response `{error: "Neynar user lookup failed", detail: t}`, whatever status the identity service answered with |
| Scores.UserNotFound | api/scores.js:54 | reference definition of the 404 response `{error: "User not found"}` |
| Scores.ServerError | api/scores.js:122 | reference definition of the catch block's 500 response `{error: "Server error", detail}`, with the runtime message abstract |
| Scores.MissingQuotientKey | api/scores.js:105 | reference definition of the quotient error recorded when no quotient key is set |
| Scores.ComposeResponse | api/scores.js:108-120 | status 200 with the success body; `quotientEnabled` is the key's truthiness; `quotientError` is null exactly when the captured error is absent or empty, and otherwise equals it |
| Handler.LookupFor | api/scores.js:5-27 | reference definition of the lookup chosen for a query: trim, classify, then dispatch |
| Handler.Run | api/scores.js:1-124 | reference definition of the whole handler as a composition of the stages, giving the response and the requests made in order |
| Handler.Resolve | api/scores.js:29-120 | reference definition of everything from the identity lookup on, for a chosen lookup |
| Handler.Enrich | api/scores.js:64-120 | reference definition of the score lookups and the 200 response once a user is resolved |
| Handler.Resolves | api/scores.js:33-55 | reference definition of when the identity answer yields a usable user: ok, not null, and a found user |
| Handler.ResolveFound | api/scores.js:53-62 | once a user is found, `Resolve` continues with `Enrich` on that user's `resolved` record |
| Handler.RunFront | api/scores.js:4-27 | a blank input gives 400 and a missing Neynar key gives 500, both with no request; otherwise the outcome is the identity lookup for the chosen lookup |
| Handler.Handle | api/scores.js:1-124 | the step-by-step handler produces exactly the response and requests of `Run` |
| Handler.LookUpAndScore | api/scores.js:29-120 | the step-by-step lookups, with the reassigned `user`, `neynarUserScore` and quotient locals, produce exactly the response and requests of `Resolve` |
| Handler.BlankInputRejected | api/scores.js:4-9 | status 400 exactly when the first non-empty parameter is blank, and then the 400 body with no request made |
| Handler.BlankFidHidesUsername | api/scores.js:5 | a blank `fid` is taken before a good `username`, so the answer is 400 |
| Handler.MissingNeynarKeyIs500 | api/scores.js:14-16 | a usable input without a Neynar key gives 500 with no request made |
| Handler.BulkIffNonzeroDigits | api/scores.js:20-27 | bulk lookup exactly for all-digit inputs that are not all zeros, with their decimal value |
| Handler.ZeroFidSearchesNull | api/scores.js:21-27 | an all-zero fid searches for the term `"null"` |
| Handler.LoneAtSearchesEmpty | api/scores.js:22 | the input `@` is accepted and searches for the empty username |
| Handler.ResolveStatus | api/scores.js:33-120 | after the input checks the status is 200, 404, 500 or 502, and it is 200 exactly when a user is found |
| Handler.IdentityFailureIs502 | api/scores.js:33-36 | a non-ok identity response gives 502 with its body text as the detail and no further request; 502 arises in no other case |
| Handler.NullBodyIsServerError | api/scores.js:44-48 | a JSON `null` identity body gives the 500 "Server error" after only the identity request |
| Handler.MissingUserIs404 | api/scores.js:53-55 | an ok identity body without a usable user gives 404 after only the identity request |
| Handler.ResolvedFromShapes | api/scores.js:40-62 | a found user's `resolved` record is built from the first matching shape for the lookup |
| Handler.CallsMade | api/scores.js:29-106 | only the identity request unless a user is found; then the score request and, with a quotient key, the quotient request, both for the resolved fid |
| Handler.NeynarScoreOutcome | api/scores.js:71-79 | with a found user the status is 200; the Neynar score is null for a non-ok score response and the first defined score path otherwise |
| Handler.ZeroScoreKept | api/scores.js:75 | a `score` of 0 is kept |
| Handler.UserScoreFallback | api/scores.js:75-77 | `user_score` is used when `score` is null or missing |
| Handler.AbsentScoreIsNull | api/scores.js:74-78 | an ok score answer without `score`, `user_score` and `result` yields null |
| Handler.QuotientOutcome | api/scores.js:86-118 | the quotient fields and meta block for no key, a non-ok response and an ok response |
| Handler.QuotientNeverFatal | api/scores.js:82-120 | any quotient key, and any quotient answer that arrives (ok with a parsed body, or not ok with a text), give the same status, the same `resolved` record and the same Neynar score |
| Handler.SuccessFieldsDefined | api/scores.js:108-120 | no field of a successful body is undefined, so none is dropped from the JSON |
| Handler.DigitsSelectBulk | api/scores.js:5-27 | a `fid` parameter of nonzero digits passes the input checks and selects bulk lookup by its value |
| Handler.Decimal123 | api/scores.js:20-21 | `"123"` is a nonzero digit string with value 123 |
| Handler.AliceRecord | api/scores.js:44-62 | a bulk body with one user yields that user and its `resolved` record |
| Handler.AliceScore | api/scores.js:74-78 | a score body `{score: 0.8}` yields 0.8 |
| Handler.AliceResolved | api/scores.js:29-120 | the bulk lookup for fid 123 against a sample service yields the exact 200 body and the two requests |
| Handler.AliceByFid | api/scores.js:1-124 | the whole request `?fid=123` with only the Neynar key set yields the exact 200 body and the two requests |

## Left out

- The network. `fetch`, URLs, headers, request bodies and `encodeURIComponent`
  are not modelled. `fetch` is a parameter that answers each request. The only
  trace of encoding in the model is the search term `"null"`.
- The response mechanics of `res.status(...).json(...)`. A response is a status
  plus a body datatype.
- `process.env`. The two keys are `Option<string>` parameters.
- JSON parsing. Bodies arrive already parsed. A body that fails to parse, and
  therefore throws into the catch block, is not modelled.
- Other exceptions from the runtime. The only thrown error modelled is the
  `TypeError` from a null identity body. The text of its message is abstract
  (`RuntimeMessage`).
- Repeated query parameters, which arrive as arrays and reach `.toString()`.
  Each parameter is a single string or absent.
- Numbers. `Json` numbers are exact reals, not doubles. Double rounding, and
  the `Infinity` that `JSON.parse` gives for a literal like `1e999` (which
  `res.json` writes back as `null`), are not represented. Truthiness is
  unaffected except for a nonzero literal that underflows to 0. Scores are
  passed through unchanged either way.
- Handler.QuotientNeverFatal: holds only for quotient answers that arrive and,
  when ok, parse. A quotient request that fails outright, or an ok body that
  does not parse, throws into the catch block and gives 500 (lines 87, 97,
  121-122). `Upstream` cannot express those answers.
- Text.DecimalValue: computes the exact value. `Number` on a very long digit string loses
  precision or becomes `Infinity`. A nonzero digit string stays nonzero, so
  the bulk-or-search choice is the same; only the fid sent upstream differs.
- Characters are Unicode scalar values, not UTF-16 code units. `trim` and the
  first-character tests agree either way, because every white-space code point
  and `@` fit in one unit.
- Properties inherited from prototypes, and duplicate keys in JSON objects.
  The property names the handler reads are no prototype member.
- Concurrency. The handler runs each request on its own, and `await` only
  sequences the calls.
