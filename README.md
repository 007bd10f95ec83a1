# TruthLensAI news feed and analysis: a Dafny model

TruthLensAI is a small news reader. The server fetches articles from a news
provider and normalises them. It keeps the fresh ones, or all of them when none
is fresh, and it serves a built-in mock set when it has no API key or the
provider answers with an error status. On request it analyses one article: it
pulls a JSON object out of a language model's reply, or synthesises a
placeholder analysis. The browser client shows one article card at a time. It
moves through the list on vertical swipes and mouse drags, escapes text for
HTML, prints relative ages ("5m", "3h", "2d") and colours the truth score.

The model covers that logic and nothing around it:

- `wrappers.dfy` (`Wrappers`): `Option` (null/undefined against a value, with `??` as `OrElse` and `GetOr`) and `Result` (a value, or what was thrown).
- `values.dfy` (`Values`): JavaScript truthiness of string fields, `||`, `Response.ok`, and the decimal text of an integral Number.
- `strings.dfy` (`Strings`): `indexOf`, `lastIndexOf` and `replaceAll` with a one-character pattern.
- `sequences.dfy` (`Sequences`): `Array.prototype.filter` and its laws: order kept, multiplicities kept, emptiness, idempotence.
- `news.dfy` (`News`): record normalisation, the freshness filter with its fallback, the mock set, and the branches of `fetchNews`.
- `analysis.dfy` (`Analysis`): the `POST /api/analyze` handler: validation, the demo analysis, choice of the model's text, whole-string then brace-scan extraction, and the fallback object.
- `helpers.dfy` (`Helpers`): `escapeHtml`, `timeAgo` and the truth-score colour.
- `gestures.dfy` (`Gestures`): the touch and mouse rules of a card, as a class holding `startY`, `moved` and `mdStart`.
- `navigation.dfy` (`Navigation`): the client's `articles`/`index` state as a class, with `loadNews`, `render`, `nextArticle` and `prevArticle`.

Outside collaborators become parameters. Date parsing is a function
`string -> Option<int>` from a date string to its instant in milliseconds.
`JSON.parse` is a function `string -> Option<J>`, where `J` is the type of
parsed values. The clock is an integer `now`. Whether an API key is set is a
boolean. A provider call is a datatype of its possible outcomes: the fetch
rejects, or it returns a status and a body that decodes or does not. An
article's `pubDate` is kept as the instant its ISO-8601 string denotes
(`Option<int>`; None is an invalid date). The sentiment and bias numbers
(0.2, 0.6, 0.5) are Dafny `real` constants.

Some behaviour of the code that a caller might not expect, all of it modelled:

- A truthy `pubDate` that does not parse does not default to the current time. `toISOString` throws a RangeError, so the whole fetch cycle fails and the route answers 500 (`NormalizeRecord`, `MapRecords`).
- Not every provider failure degrades to mock data. Only a missing key and a non-2xx status do. A rejected fetch and a body that is not JSON throw, and the route answers 500 (`FetchNews`).
- The extractor can fail. When the brace slice does not parse, `JSON.parse` throws and the route answers 500 "Analyze failed". The fallback object is built only when the text has no `{` before a `}` (`ExtractJson`, `Analyze`).
- An emitted article's `id` is always its `link`. The title or generated id is used only for records that the viability filter then drops (`Normalize`).
- A list-valued `category` that is empty gives undefined, not "general" (`CategoryOf`).
- A title of `""` is not replaced by "Untitled": `??` keeps it, and the filter drops the record.
- Emitted ids are not unique within a cycle: an emitted article's id is its link, so records that repeat a link give articles that repeat an id, and duplicate records are all kept.

## Model

| member | source | states |
|---|---|---|
| News.CategoryOf | server.js:49 | an absent category becomes "general", a single value is kept, a list gives its first element, and an empty list gives undefined |
| News.Viable | server.js:53 | an article passes the viability filter iff its title and its link are both truthy |
| News.HasBadDate | server.js:41 | a record whose date makes `toISOString` throw has a present, non-empty `pubDate` |
| News.FallbackId | server.js:43 | the generated id starts with "news-" and is longer than the prefix and separator |
| News.FallbackIdsDistinct | server.js:43 | within one cycle, records at different indices get different generated ids |
| News.NormalizeRecord | server.js:40-52 | throws exactly when `pubDate` is truthy and unparseable; otherwise the date is the parsed instant, or `now` when `pubDate` is falsy; the article is viable iff the link is truthy and the title is not ""; a viable article's id is its link; a missing title becomes "Untitled"; summary is description, else content, else ""; content is content, else ""; the image URL is kept; source name is `source_name`, else `source_id`, else "Unknown"; the category is that of `CategoryOf` |
| News.MapRecords | server.js:40-52 | the map succeeds iff no record has a bad date; on success, element i is record i normalised at index i |
| News.Normalize | server.js:40-53 | succeeds iff no record has a bad date; every surviving article has a non-empty title and link, `id == link`, and a parseable date, so the freshness filter's invalid-date branch never applies to them; every record with a truthy link and a title other than "" reaches the output; the output is an order-preserving subsequence of the mapped records, and each viable article occurs in it exactly as often as among the mapped records |
| Values.DigitsInjective | server.js:43 | different naturals have different decimal texts |
| News.UntitledIsKept | server.js:44-53 | a record with a truthy link and no title reaches the output as "Untitled" with the same link |
| News.UnusableRecordIsDropped | server.js:51-53 | a record whose link is missing or "", or whose title is "", is not in the output |
| News.IsFresh | server.js:57-59 | an article is stale iff its date is valid and earlier than the cutoff |
| News.Cutoff | server.js:55 | the cutoff is `now` minus the maximum age in milliseconds, and is never after `now` for a non-negative age |
| News.FreshnessFilter | server.js:55-61 | the output is an order-preserving subsequence of the input; it is empty iff the input is; with no fresh article it is the input unchanged; otherwise it holds every fresh article as often as the input does and nothing else (fresh: unparseable date or time >= cutoff) |
| News.FreshnessIdempotent | server.js:56-61 | filtering the output again with the same cutoff returns it unchanged |
| News.MockArticles | server.js:64-70 | two viable articles with distinct ids, dated `now` and one hour earlier |
| News.RawRecords | server.js:39 | the records are `results`, else `data`, else none |
| News.FetchNews | server.js:21-61 | no key or a non-2xx status gives the mock set; a rejected fetch or a non-JSON body fails; otherwise it is the freshness filter of the normalised records at `now - maxAge`; every article of any successful result is viable |
| News.ScenarioNullDate | server.js:41-53 | `{title: "A", link: "https://x/1", pubDate: null}` gives a viable article titled "A" with the same link, dated `now` |
| Sequences.Filter | server.js:53 | the filter's output is no longer than its input, and every kept element is in the input and satisfies the predicate |
| Sequences.FilterIsSubsequence | server.js:56-60 | the filter keeps the relative order of what it keeps |
| Sequences.FilterCount | server.js:56-60 | an element satisfying the predicate is kept as often as it occurs; any other element is gone |
| Sequences.FilterEmpty | server.js:61 | the filter is empty iff no element satisfies the predicate |
| Sequences.FilterAll | server.js:61 | when every element satisfies the predicate the filter is the identity |
| Sequences.FilterIdempotent | server.js:56-61 | filtering twice with one predicate equals filtering once |
| Strings.IndexOf | server.js:135 | -1 iff the character is absent; otherwise the result is an index of that character and no earlier index holds it |
| Strings.LastIndexOf | server.js:136 | -1 iff the character is absent; otherwise the result is an index of that character and no later index holds it |
| Strings.ReplaceAll | app.js:140 | for a replacement with no `$`: a string without the pattern is unchanged; no pattern character survives when the replacement lacks it; no character appears that was in neither the input nor the replacement |
| Strings.ReplaceAllAppend | app.js:140 | replacing in a concatenation is the concatenation of the replaced parts |
| Analysis.SelectContent | server.js:129 | the text is the first choice's message content when present, else that choice's `text`, else "" (also when there is no choice) |
| Analysis.BraceSpan | server.js:135-137 | a span exists iff some `{` precedes some `}`; it runs from the first `{` to the last `}`: it starts with `{` and ends with `}`, with no `{` before it and no `}` after it |
| Analysis.ExtractJson | server.js:131-143 | a whole-string parse wins; with no brace pair extraction reports that; otherwise the result is the parse of the inclusive slice from the first `{` to the last `}`, and a failed parse is reported |
| Analysis.ExtractFromProse | server.js:133-138 | a JSON object surrounded by prose with no `{` before it and no `}` after it is recovered exactly |
| Analysis.NoBracesFallsBack | server.js:137-142 | unparseable text with no `{` leads to the fallback path |
| Analysis.DemoAnalysis | server.js:89-98 | scores 65 and 60, `verified: false`, neutral/center labels, the analysis time, and one perspective with the `??` defaults (source "Original", summary "") |
| Analysis.FallbackAnalysis | server.js:141 | the summary is the first min(1000, length) characters of the text; scores 60 and 50, `verified: false`; one perspective with the logical-or defaults, so its source is never "" |
| Analysis.EmptySourceName | server.js:141 | a source name of "" stays "" in the demo (`??`, line 96) and becomes "Original" in the fallback (logical or) |
| Analysis.IsValidRequest | server.js:86 | a request passes validation only with a body whose title is a non-empty string |
| Analysis.Analyze | server.js:83-148 | 400 iff the body is missing or its title is falsy; no model key gives the demo; a non-2xx model status gives 500 "OpenAI API failed"; a rejected call or an undecodable body gives 500 "Analyze failed"; with a key, a 2xx status and a decoded body, the chosen text's extraction decides: a parsed value is returned, an unparseable brace slice gives 500 "Analyze failed", and no brace pair gives the fallback object; a synthesised answer has one perspective carrying the article's link and is dated now |
| Analysis.ParsedTextPassesThrough | server.js:128-144 | model text that parses whole is returned as parsed |
| Analysis.EmptyBodyIsRefused | server.js:86 | a body without a title is refused with 400 whatever the configuration |
| Analysis.DemoScenario | server.js:89-99 | without a key, `{title: "T", summary: "S", link: "L", sourceName: "Src"}` gets `perspectives[0] == {source: "Src", summary: "S", url: "L"}` and is dated now |
| Helpers.EscapeHtml | app.js:140 | a falsy input gives ""; the output never contains `<` or `>` |
| Helpers.EscapeIsPerCharacter | app.js:140 | the three chained replacements equal escaping each character on its own (`&` to `&amp;`, `<` to `&lt;`, `>` to `&gt;`, others unchanged), because `&` goes first |
| Helpers.EscapeHtmlPerCharacter | app.js:140 | a truthy string is escaped character by character |
| Helpers.EscapeHtmlPlain | app.js:140 | a string without `&`, `<` and `>` is returned unchanged |
| Helpers.TimeAgo | app.js:129-139 | under a minute, including a negative difference, gives "just now"; otherwise whole minutes plus "m" under an hour, whole hours plus "h" under a day, and whole days plus "d"; an invalid date gives "NaNd" |
| Helpers.TruthColor | app.js:112 | green iff the score is at least 80; orange iff it is in [50, 80); red otherwise, including an absent score |
| Helpers.TruthColorMonotone | app.js:112 | a higher score never gets a worse colour |
| Gestures.TouchDecision | app.js:71-80 | a tap iff abs(dy) < 50 and the touch never moved; otherwise next iff dy < -80, previous iff dy > 80, and nothing in between |
| Gestures.DragDecision | app.js:90 | never a tap; next iff dy < -80; previous iff dy > 80 |
| Gestures.TouchSwipeIsDrag | app.js:76-90 | a touch that is not a tap is decided exactly like a drag |
| Gestures.CardGestures.constructor | app.js:62-63 | no touch start, not moved, no mouse start |
| Gestures.CardGestures.TouchStart | app.js:64 | records the start and clears `moved` |
| Gestures.CardGestures.TouchMove | app.js:65 | `moved` becomes true iff a followed touch travels more than 10; an unfollowed one changes nothing |
| Gestures.CardGestures.TouchEnd | app.js:66-81 | with no start, or a start at clientY 0, it is ignored and keeps the start; otherwise it clears the start and returns the touch decision for end minus start |
| Gestures.CardGestures.MouseDown | app.js:85 | records the mouse start |
| Gestures.CardGestures.MouseUp | app.js:86-91 | with no start it is ignored; otherwise it returns the drag decision; the start is cleared |
| Gestures.StartAtZero | app.js:64-91 | a touch starting at clientY 0 is ignored, while a mouse drag from 0 is handled |
| Gestures.WobblyTouch | app.js:64-75 | a short touch is a tap, but not if a move along the way went past 10 |
| Navigation.Advance | app.js:94 | the index grows by one iff it is below length - 1, and stays in range |
| Navigation.Retreat | app.js:95 | the index shrinks by one iff it is positive, and stays non-negative |
| Navigation.AdvanceRetreat | app.js:94-95 | away from the ends, next then previous (and previous then next) returns to the same index |
| Navigation.Pager | app.js:53 | the pager reads the one-based index, " / ", and the list length, in decimal |
| Navigation.Feed.constructor | app.js:8-9 | an empty list at index 0 |
| Navigation.Feed.Render | app.js:28-53 | null or an empty list shows the "No articles available." message; a non-array value makes `render` throw; otherwise it shows card `articles[index]` with the pager `(index+1) / length`, and the index is in range |
| Navigation.Feed.LoadNews | app.js:11-26 | a failed request keeps the state and shows the failure message; a decoded reply replaces the list, resets the index to 0 and shows what `render` shows, or the failure message when `render` throws |
| Navigation.Feed.NextArticle | app.js:94 | the index becomes `Advance` of the old one; the invariant holds |
| Navigation.Feed.PrevArticle | app.js:95 | the index becomes `Retreat` of the old one; the invariant holds |
| Navigation.Feed.Perform | app.js:76-80 | a next swipe advances, a previous swipe retreats, and every other gesture leaves the index alone |

## Left out

- Express plumbing is not modelled: routing, CORS, body parsing, static files, the catch-all route and `listen` (server.js:1-18, 73-81, 151-161). The route's catch is folded into the `Failure` and `ServerError` results.
- The network is not modelled. The calls to the news provider and to the model are replaced by their outcomes. The prompt payload is not built (server.js:26-33, 102-128).
- Environment reading is not modelled. The two keys are booleans (their truthiness), and `MAX_AGE_HOURS` is an integer parameter. A fractional or NaN age, which `Number(...)` allows, is not modelled.
- `Date` parsing and `toISOString` are not modelled. Dates are instants in milliseconds, and a parser is passed in. Every clock read of one fetch cycle, including those of the mock set (server.js:41, 43, 55, 65, 68), is the one `now` parameter.
- `JSON.parse` and `JSON.stringify` are not modelled beyond being a parser passed in. So the round trip `extract(stringify(X)) == X` holds only to the extent the parser has that property.
- Floating point is not modelled. The sentiment and confidence constants are exact Dafny reals.
- Values of unexpected JavaScript types are not modelled: a raw record that is null, a field that is a number or an object, a `results` value that is not an array. Every raw field is a string or absent.
- Decimal: integers from 10^21 upwards, which JavaScript prints in exponent notation, are not modelled.
- Strings are sequences of characters, not of UTF-16 code units. `slice(0, 1000)` therefore counts characters.
- DOM work is not modelled: element lookup, the card's HTML template, listener wiring, the overlay, `openDetail`/`openAnalytics` and the body of `renderAnalytics` except its colour rule (app.js:1-6, 36-52, 56-59, 97-126, 143). A tap is reported as the `Tap` action.
- Touch and mouse events are reduced to an integer `clientY`. Fractional coordinates are not modelled.
- Navigation.Feed.NextArticle: on a null `articles` value, `nextArticle` throws before rendering. The model only states the index effect, which is "unchanged" in that case too. No card, and so no gesture, exists in that state.
