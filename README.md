# Form relay and county autocomplete, modelled in Dafny

This project models two parts of a small system. The system takes web-form
submissions from people asking to be contacted about their county, and
writes each one as a row of a Google spreadsheet. Each U.S. state has its own
sheet, named "<State> Responses".

**The relay with a retry queue.** This part comes from `sheets_common.py`.
`post_form` turns a form into a row of ten fixed columns. It then appends the
row to the state's sheet. When the append fails, or when a random fault
injection fires, it sends the row to an SQS queue instead. The queued row
travels in a JSON envelope `{error, sheet_name, values}`. `repost_form`
sweeps one batch of queued messages. It replays each message's row, and it
deletes a message only after that message's append succeeded.
`sheets_post.py` and `lambda.py` are two older relays with a single path and
no queue. One projects the form onto the same fixed columns. The other
projects it onto the header row it reads from the sheet. Each has its own
Lambda handler that builds the form from the request event.

**The county autocomplete.** This part comes from `data-functions.js` and
`scripts/functions.js`, whose `index_geographies` and `intersect_lists` are
identical. `index_geographies` builds an inverted index. It files every
county's key (its state FIPS code followed by its county code) under every
prefix of every lower-cased word of "county state". `intersect_lists`
intersects candidate lists in place. `on_source` answers a typed query as
follows:

- it looks up each word of the query;
- it intersects the lists it found and sorts the result;
- it drops repeated keys;
- it puts the counties whose full name starts with the whole query first;
- it returns at most ten suggestions.

It also rebuilds the `suggestion_fips` table. `on_select` uses that table to
find the chosen county's state code in the `fips_postalcode` table.

Layout, one module per file:

| file | module | models |
|---|---|---|
| `wrappers.dfy` | `Wrappers` | `Option` and `Result` |
| `strings.dfy` | `Strings` | the character order JavaScript's `sort` and Python's `sort_keys` use |
| `json.dfy` | `Json` | parsed JSON, `dict` lookup (the last duplicate key wins) and `sort_keys` |
| `sheets_common.dfy` | `SheetsCommon` | `FIELDS`, the row projection, the sheet name and the retry envelope |
| `relay.dfy` | `Relay` | `post_form` and `repost_form` over a `Backend` object holding the sheets and the queue |
| `sheets_post.dfy` | `SheetsPost` | `sheets_post.py` |
| `lambda_form.dfy` | `LambdaForm` | `lambda.py` |
| `js_text.dfy` | `JsText` | `trim`, `toLowerCase`, `split(/\s+/)` and `sort` |
| `geo_index.dfy` | `GeoIndex` | `index_geographies` |
| `intersect.dfy` | `Intersect` | `intersect_lists` |
| `fips.dfy` | `FipsTable` | `fips_postalcode` |
| `autocomplete.dfy` | `Autocomplete` | `get_autocomplete`, `on_source` and `on_select` |

External calls are not modelled as code. Each remote call (a sheet append,
a header read, a queue send, a queue delete) is answered by a `Reply` value
that the caller passes in. In a sweep, message j is answered by
`appendReply(j)` and `deleteReply(j)`. The draw of `random.random()`, the
`utcnow()` timestamp and the redirect URL are parameters too.

The county loop `IndexCounties` takes one ghost argument, used only in its
proof: the key and the word list of every county row. The loop is proved
against a fold over that list, and `IndexFoldIsIndexAfter` equates that fold
with the index `IndexAfter` that the lemmas describe.

A form without a State entry has no destination: in the code,
`'{State} Responses'.format(**form)` raises `KeyError` before any append or
send, and the model follows it (`SheetsCommon.SheetName`). The sheet "None
Responses" arises only when a Lambda handler puts a `None` state into the
form (`SheetsPost.MissingStateGoesToNoneResponses`,
`LambdaForm.LambdaMissingState`).

## Model

| member | source | states |
|---|---|---|
| SheetsCommon.Project | sheets_common.py:37-38 | The row has one entry per column, in column order. Entry i is the form's value for column i, or None when the form lacks that column. |
| SheetsCommon.FieldsDistinct | sheets_common.py:16-17 | The ten column names are pairwise distinct. |
| SheetsCommon.UnprojectThenProject | sheets_common.py:37-38 | Over distinct columns, every row of the right length is the projection of a form: the form rebuilt from the row projects back to it. |
| SheetsCommon.SheetName | sheets_common.py:36 | `KeyError('State')` exactly when the form has no State entry. Otherwise the printed State value followed by " Responses". |
| SheetsCommon.SameSheetIffSameState | sheets_common.py:36 | Two forms with a state go to the same sheet exactly when their states print alike. |
| SheetsCommon.JsonRow | sheets_common.py:77-78 | A JSON value reads as a row exactly when it is an array of strings and nulls. The row read writes back to the same array. |
| SheetsCommon.JsonRowOfRowJson | sheets_common.py:28 | A row written as a JSON array reads back as the same row. |
| SheetsCommon.PackShape | sheets_common.py:25-28 | The packed envelope has exactly the keys error, sheet_name and values, once each and in sorted order. Each key holds its entry. |
| SheetsCommon.PackSortsKeys | sheets_common.py:28 | `dict(values=..., sheet_name=..., error=...)` written with `sort_keys=True` has Pack's member order. |
| SheetsCommon.Unpack | sheets_common.py:77-78 | A non-object gives TypeError. An object without values gives `KeyError('values')`. On success, the object's values, error and sheet_name entries are the envelope's. |
| SheetsCommon.DecodePack | sheets_common.py:77-78 | Decoding a packed envelope as repost_form does gives the same values, sheet name and error back. |
| SheetsCommon.UnpackOfEntries | sheets_common.py:77-78 | An object whose three entries are an envelope's unpacks to that envelope. |
| SheetsCommon.DecodeDeterminesEntries | sheets_common.py:77-78 | Two objects that unpack to the same envelope hold the same three entries. |
| Json.GetFindsLast | sheets_common.py:77-78 | A parsed object's lookup finds the last member with the key. |
| Json.SortKeys | sheets_common.py:28 | `sort_keys=True` writes the same members (a permutation) in key order. |
| Relay.AddRow | sheets_common.py:49-52 | An append adds exactly the row at the end of its sheet and leaves every other sheet as it was. |
| Relay.Without | sheets_common.py:96 | A delete leaves exactly the messages with another receipt handle. |
| Relay.WithoutKeepsHandlesDistinct | sheets_common.py:96 | A delete keeps receipt handles distinct. |
| Relay.Ingested | sheets_common.py:33-65 | A form without State raises `KeyError` before any call. A draw below `error_chance` never calls the append and queues the row with `'Randomly errored'`. A failed append queues the same row and sheet with the error's repr. The outcome is never both a write and a queued message. With State and a working send it is always one of them. The result is 0 exactly then. Only a failing send escapes. With State, no forced fault and a successful append, the row is written to its sheet, nothing is queued, the send is never called and the result is 0, whatever the send would have answered. |
| Relay.ErrorChanceExtremes | sheets_common.py:45-46 | With `error_chance` 1 every draw in [0,1) fails on purpose. With 0 none does. |
| Relay.Replay | sheets_common.py:77-97 | One loop iteration. A body that does not decode stops the sweep with nothing changed. A failed append is swallowed and the message stays. A successful append adds the stored row to the stored sheet, and a message is deleted only after its append succeeds. A failing delete stops the sweep. |
| Relay.SweepRunsIff | sheets_common.py:76-97 | The sweep gets through the first n messages exactly when each decodes and each successful append is followed by a successful delete. A failed append never stops it. |
| Relay.SweepAbortIsFinal | sheets_common.py:76-78 | Once the sweep has stopped, the rest of the batch changes nothing. |
| Relay.SweepQueue | sheets_common.py:84-97 | After an uninterrupted sweep, the queue holds exactly the old messages whose handle no successful replay acknowledged. |
| Relay.SweepSheets | sheets_common.py:84-89 | After an uninterrupted sweep, each sheet holds its old rows, then the stored rows of its successfully replayed messages, once each and in batch order. |
| Relay.DeletedIffReplayed | sheets_common.py:91-96 | In a batch of distinct queued messages, a message left the queue if and only if its replay succeeded. |
| Relay.SweepDeletesOnlyAcked | sheets_common.py:76-97 | For every sweep, including one stopped by a malformed body or a failing delete: no message joins the queue, and a message leaves it only when the append of a message with its handle succeeded. |
| Relay.Backend.Append | sheets_common.py:49-52 | The sheets change by AddRow when the append succeeds, and not at all otherwise. |
| Relay.Backend.Send | sheets_common.py:58 | A sent body joins the end of the queue under a fresh receipt handle. |
| Relay.Backend.Delete | sheets_common.py:96 | The queue changes by Without when the delete succeeds. |
| Relay.Backend.PostForm | sheets_common.py:30-65 | The result, the new sheets and the new queue are those Ingested describes. The queued body is the packed envelope under a fresh handle, and nothing else changes. |
| Relay.Backend.ReplayMessage | sheets_common.py:77-97 | The new state is Replay's, and the escaping exception is returned. |
| Relay.Backend.RepostWith | sheets_common.py:74-97 | The state and result are those of the sweep over the whole batch, and an absent `Messages` key is an empty batch. The loop invariant is that the state so far is SweepPrefix's. |
| Relay.Backend.RepostForm | sheets_common.py:67-97 | A failing `receive_message` escapes with its error and changes nothing. Otherwise as RepostWith over the received messages (none when the response has no Messages), with each body read by Decode. |
| SheetsPost.PostRow | sheets_post.py:29-31 | The row has 10 entries, entry i being `formdata.get(fields[i])`. It equals the queue path's projection through FIELDS. |
| SheetsPost.PostForm | sheets_post.py:23-45 | `KeyError` without State. Otherwise one append of the row to "<State> Responses". A failed append escapes with its error. A successful one writes exactly that row to that sheet and returns 0. |
| SheetsPost.PostFormAgreesWithQueuePath | sheets_post.py:27-31 | With no forced fault, both relays write the same row to the same sheet and return the same result. On a failed append this one raises where the queue path keeps the row. |
| SheetsPost.ToForm | sheets_post.py:62-73 | A dict display has exactly the displayed keys. |
| SheetsPost.ToFormAt | sheets_post.py:62-73 | With distinct keys, each key holds its own value. |
| SheetsPost.EventValues | sheets_post.py:61-72 | One value per event key, in order. Every value is None when the event has no data object. A key missing from `data` gives None, and a present key gives its entry. |
| SheetsPost.HandlerFormEntries | sheets_post.py:61-73 | The handler's form has exactly the ten column names as keys. The time is under Timestamp and each event key's entry is under its column name. |
| SheetsPost.LambdaHandler | sheets_post.py:47-76 | The handler answers `{'Location': redirect}` exactly when the append succeeded. |
| SheetsPost.HandlerRow | sheets_post.py:62-75 | Every column of the appended row comes from the event: the time, then the event's entries in column order. The sheet is named after the event's state. |
| SheetsPost.HandlerState | sheets_post.py:65 | The form's State entry is the event's state. |
| SheetsPost.ProjectHandlerForm | sheets_post.py:31 | Projecting the handler's form gives the time followed by the event's entries. |
| SheetsPost.MissingStateGoesToNoneResponses | sheets_post.py:61-76 | An event without a state is appended to "None Responses" and does not raise. |
| SheetsPost.NoneSheet | sheets_post.py:27 | A None state names the sheet "None Responses". |
| LambdaForm.HeaderRange | lambda.py:19-20 | The header range is the quoted sheet name followed by `!A1:Z1`. |
| LambdaForm.HeaderRangeInjective | lambda.py:20 | Two header ranges are equal exactly when their sheets are. |
| LambdaForm.Columns | lambda.py:22 | No values gives no columns. Empty values give `IndexError`. Otherwise the columns are the first row. |
| LambdaForm.PostForm | lambda.py:12-35 | `KeyError` without State, before any call. Otherwise the header read asks for the range `'<State> Responses'!A1:Z1`. A failed read escapes, and a response whose values are empty raises `IndexError`. Then the append of the form projected onto the header's columns: a failure escapes, and a success writes that row to "<State> Responses" and returns 0. |
| LambdaForm.NoHeaderEmptyRow | lambda.py:22-23 | A header response without values leads to an empty row, which is still appended. |
| LambdaForm.HandlerForm | lambda.py:51-54 | The handler's form has exactly the keys Timestamp, Name and State, holding the time, the event's name and its state. |
| LambdaForm.HandlerColumns | lambda.py:23 | Under any header, Timestamp, Name and State columns get the handler's entries and every other column gets None. |
| LambdaForm.LambdaHandler | lambda.py:37-57 | The handler redirects exactly when the header read and the append succeeded. The sheet is named after the event's state. |
| LambdaForm.LambdaMissingState | lambda.py:51-56 | An event without a state requests the header range `'None Responses'!A1:Z1` and appends to "None Responses". |
| JsText.SkipSpace | scripts/functions.js:94 | The first position at or after i that is not white space. |
| JsText.Trim | scripts/functions.js:94 | `trim()` returns a contiguous slice of the string. |
| JsText.TrimCutsSpace | scripts/functions.js:94 | Only white space is cut, and the result neither starts nor ends with white space. |
| JsText.TrimIdempotent | scripts/functions.js:94 | Trimming twice is trimming once. |
| JsText.LowerChar | scripts/functions.js:94 | The result is never an upper-case letter. An upper-case letter becomes the lower-case letter at the same place in the alphabet, and any other character is unchanged. |
| JsText.Lower | scripts/functions.js:94 | The length is kept and no upper-case letter is left. Each upper-case letter becomes its lower-case letter, and every other character stays where it was. |
| JsText.LowerKeepsSpace | data-functions.js:24 | Lower-casing keeps white space where it was. |
| JsText.LowerIdempotent | scripts/functions.js:94 | Lower-casing twice is lower-casing once. |
| JsText.Split | scripts/functions.js:95 | At least one piece, none holding white space. |
| JsText.SplitKeepsVisible | scripts/functions.js:95 | The pieces laid end to end are the string without its white space. |
| JsText.SplitInnerPiecesNonEmpty | scripts/functions.js:95 | Only the first and the last piece can be empty. |
| JsText.SplitFirstPiece | scripts/functions.js:95 | A string starting with a visible character has a non-empty first piece starting with that character. |
| JsText.SplitNoSpace | scripts/functions.js:95 | A string without white space is its own only piece. |
| JsText.SplitLeadingSpace | scripts/functions.js:95 | A leading run of white space gives one empty piece, followed by the pieces of the rest. |
| JsText.SplitAtSpace | scripts/functions.js:95 | A visible word followed by a run of white space is the first piece, followed by the pieces of what comes after the run. With SplitLeadingSpace and SplitNoSpace this fixes the pieces of every string, so "pine bluff" gives "pine" and "bluff". |
| JsText.Sort | scripts/functions.js:108 | `sort()` gives a sorted permutation of its input. |
| GeoIndex.StateNamesKeys | data-functions.js:12-16 | `state_names` has exactly the FIPS codes of state rows 1 onwards as keys. Row 0 is the header. |
| GeoIndex.NamesKeys | data-functions.js:18-27 | `county_names` and `county_fullnames` have exactly the keys of county rows 1 onwards. |
| GeoIndex.NamesLastWins | data-functions.js:26-27 | A county's name and "name, state name" are filed under its key, unless a later row has the same key. |
| GeoIndex.PushEntry | data-functions.js:36-41 | A push appends the key to the one list of its prefix, creating that list when needed. |
| GeoIndex.AddPrefixesEntry | data-functions.js:32-42 | The prefix loop appends the key to the list of each prefix of the token, once each. |
| GeoIndex.AddTokensEntry | data-functions.js:29-43 | The token loop appends the key once per token the prefix belongs to. |
| GeoIndex.IndexAfterPostings | data-functions.js:18-44 | Each list of the index is the keys of the counties, in row order, one copy for each of a county's tokens the prefix belongs to. |
| GeoIndex.IndexAfterNoEmptyLists | data-functions.js:36-41 | Every list of the index holds at least one key. |
| GeoIndex.PostingsGrow | data-functions.js:36-37 | Indexing more rows only extends each list at its end. |
| GeoIndex.IndexCovers | scripts/functions.js:37-56 | Prefix coverage: for every county row after the header, each token of its lower-cased "name state name" and each k from 1 to that token's length, `index[token.substr(0, k)]` holds the county's key. |
| GeoIndex.IndexSound | data-functions.js:29-43 | Every key in a list belongs to a county with a token that the list's prefix is a non-empty prefix of. |
| GeoIndex.IndexKeysArePrefixes | data-functions.js:32-41 | Every index key is a non-empty prefix of some county's token. |
| GeoIndex.IndexKeysNamed | data-functions.js:18-43 | Every key listed in the index has a name and a full name. |
| GeoIndex.IndexGrowsByAppending | data-functions.js:36-37 | Each list of the index built from fewer rows is a prefix of the list built from more. |
| GeoIndex.ReadStates | data-functions.js:12-16 | The state loop computes StateNames over every row after the header. |
| GeoIndex.IndexPrefixes | data-functions.js:32-42 | The prefix loop computes AddPrefixes for k from 1 to the token's length. |
| GeoIndex.IndexTokens | data-functions.js:29-43 | The token loop computes AddTokens over the tokens in order. |
| GeoIndex.IndexFoldIsIndexAfter | data-functions.js:18-44 | Folding the counties' precomputed keys and tokens gives the same index as IndexAfter, which computes each county's tokens as it goes. |
| GeoIndex.IndexCounty | data-functions.js:18-44 | One county loop iteration moves the index, the names and the full names from rows up to i to rows up to i + 1. |
| GeoIndex.IndexCounties | data-functions.js:18-44 | The county loop, over every row after the header, computes the index, the names and the full names of all those rows. |
| GeoIndex.IndexGeographies | data-functions.js:4-49 | The result is the index, names and full names of every row after the header. With the lemmas above, it has prefix coverage and soundness. |
| Intersect.RemoveMissing | data-functions.js:61-68 | The backwards splice loop keeps exactly the elements found in the list, in order, duplicates kept. |
| Intersect.IntersectLists | data-functions.js:54-72 | The loop returns or throws what Intersection says. |
| Intersect.ErrorIsFinal | data-functions.js:59-69 | Once an undefined list has thrown, the result stays the TypeError. |
| Intersect.IntersectUpToIsCommon | data-functions.js:59-69 | While nothing has thrown, the copy holds the elements of the first list common to the lists so far. |
| Intersect.IntersectUpToThrows | data-functions.js:61-64 | A TypeError is thrown exactly when some list is undefined while the copy is still non-empty. |
| Intersect.IntersectionResult | data-functions.js:54-72 | A TypeError when there is no first list. A TypeError exactly when an undefined list is met while an element is still common. Otherwise the elements of the first list common to all the others. |
| Intersect.SingleInput | data-functions.js:57 | A single list comes back equal to the input. |
| Intersect.CommonMembers | data-functions.js:54-72 | An element is in the result exactly when it is in the first list and every other list. It occurs as often as in the first list. |
| Intersect.CommonIsSubsequence | scripts/functions.js:67-85 | The result is a subsequence of the first list. |
| FipsTable.DigitsInvertLetters | scripts/functions.js:2-12 | Each postal code of the table maps back to its FIPS code. |
| FipsTable.LettersInvertDigits | scripts/functions.js:2-12 | Each FIPS code the reverse table gives maps forward to the same postal code. |
| FipsTable.PostalCode | scripts/functions.js:147 | A code found is two letters and maps back to the two-character FIPS code looked up. |
| FipsTable.PostalCodesDistinct | scripts/functions.js:2-12 | No postal code appears twice in the table. |
| FipsTable.PostalCodeIffFips | scripts/functions.js:2-12 | A code is the postal code of a FIPS code exactly when it maps back to it. |
| Autocomplete.Substr0 | scripts/functions.js:128 | `substr(0, n)` is a prefix of length n, or the whole of a shorter string. |
| Autocomplete.LookupParts | scripts/functions.js:101-105 | `term_matches` has one entry per query part: its index list, or undefined. |
| Autocomplete.MatchedFromIndex | scripts/functions.js:101-108 | Every matched key comes from some index list. |
| Autocomplete.MatchedNamed | scripts/functions.js:114-118 | Under an index whose keys are all named, every matched key has a name and a full name. |
| Autocomplete.SortKeepsMembers | scripts/functions.js:108 | Sorting keeps exactly the same keys. |
| Autocomplete.InEveryLookup | scripts/functions.js:101-108 | A key is in the first list and in every other list exactly when every part's index list holds it. |
| Autocomplete.MatchedKeys | scripts/functions.js:94-108 | The matched keys are sorted. They are exactly the keys listed under every part of the trimmed, lower-cased, split query. |
| Autocomplete.MatchFails | scripts/functions.js:101-108 | The lookup throws exactly when the first part is not indexed, or a later part is not while some key is still common. It never throws when every part is indexed. |
| Autocomplete.Firsts | scripts/functions.js:120-125 | The `seen_fips` check keeps the same set of keys. |
| Autocomplete.FirstsNoDuplicates | scripts/functions.js:120-125 | After the `seen_fips` check, no key occurs twice. |
| Autocomplete.FirstsSeen | scripts/functions.js:120-122 | A key already seen is skipped. |
| Autocomplete.FirstsNew | scripts/functions.js:123-125 | A new key is kept at the end. |
| Autocomplete.FullMatches | scripts/functions.js:128-130 | `suggestions1` holds exactly the kept keys whose lower-cased full name starts with the query. |
| Autocomplete.OtherMatches | scripts/functions.js:131-134 | `suggestions2` holds exactly the other kept keys. |
| Autocomplete.MatchesNoDuplicates | scripts/functions.js:128-134 | Splitting into the two groups keeps keys distinct. |
| Autocomplete.RankedKeys | scripts/functions.js:111-140 | Each key is suggested at most once, and the ranked keys are exactly the matched keys. |
| Autocomplete.RankedFullFirst | scripts/functions.js:128-140 | The full-name matches take exactly the first places. A full-name match is never preceded by a key that is not one. |
| Autocomplete.FirstsOfSorted | scripts/functions.js:108-125 | Keeping the first occurrences of a sorted list gives a strictly sorted list. |
| Autocomplete.MatchesSorted | scripts/functions.js:128-134 | Each group keeps the strict order of the keys. |
| Autocomplete.RankedGroupsSorted | scripts/functions.js:108-134 | Within each group, the sorted key order is kept. |
| Autocomplete.SuggestionsCut | scripts/functions.js:140 | At most ten suggestions: the first ten ranked keys or all of them. The i-th is `{label: full name, value: short name}` of the i-th ranked key. |
| Autocomplete.FipsByLabelCovers | scripts/functions.js:136 | `suggestion_fips` files every key under its full name. What it files under a name is a key with that full name. |
| Autocomplete.SelectableAfterSource | scripts/functions.js:112-136 | After a query, every matched full name can be looked up in `suggestion_fips`, including those cut from the ten shown. It gives a matched key with that full name. |
| Autocomplete.RankMatches | scripts/functions.js:111-137 | The loop fills `suggestions1`, `suggestions2` and `suggestion_fips` from the kept keys in order. |
| Autocomplete.RankOne | scripts/functions.js:114-137 | One iteration of that loop keeps the loop's invariant one key further. |
| Autocomplete.IndexAfterNamed | scripts/functions.js:17-57 | The index index_geographies builds names every key it lists. |
| Autocomplete.Autocompleter.constructor | scripts/functions.js:89-90 | The object holds index_geographies' result and an empty `suggestion_fips`. |
| Autocomplete.Autocompleter.OnSource | scripts/functions.js:92-141 | The response is Source's. A throwing lookup leaves `suggestion_fips` untouched. Otherwise `suggestion_fips` is every kept match's full name mapped to its key. |
| Autocomplete.Autocompleter.OnSelect | scripts/functions.js:143-147 | A TypeError exactly when the chosen label is not in `suggestion_fips`. Otherwise the state code is the one postal code that maps back to the first two characters of the key, or none when no code does. |

## Left out

- The remote services themselves (Google Sheets, SQS) are not modelled. Each call's outcome is a parameter (`Reply`, or `Received` for `receive_message`, `HeaderReply` for the header read), and a sheet that does not exist is one of the ways an append can fail. Message ids, the visibility timeout, redelivery and concurrent sweeps are not modelled.
- `make_service` in all three Python files, `get_fields` in `sheets_post.py` (never called), `configure-gateway.py` and `sheets_dequeue.py` are not part of this model. They build credentials and clients, or read the environment.
- Output and time are not modelled: `print`, `console.log`, the timing in `index_geographies` and `response.get('updates')` (read only to print it). `datetime.utcnow()` becomes a `now` string parameter, and `random.random()` a `draw` parameter.
- JSON text is not modelled: the indentation, escapes and exact bytes of `json.dumps`. A body is either the JSON tree `json.dumps` wrote or text that fails to parse.
- `repr(e)` of the deliberate fault is the text the tests expect, `RuntimeError('Randomly errored',)`. Other exceptions' repr is an opaque string carried by the failing `Reply`.
- SheetsCommon.Unpack: it refuses with TypeError any `values` that is not an array of strings and nulls, and any `error` or `sheet_name` that is not a string. Python would pass other JSON on to the append.
- Form values are strings or None, so `str()` in `format` is modelled for those two only.
- The Lambda event's `data` is either absent or a dictionary. A non-dictionary `data` is not modelled.
- JsText.Lower: lower-cases A to Z only, as `toLowerCase` does for ASCII. Other letters' case mappings are not modelled.
- JsText.Sort: defined by its result, a sorted permutation, ordered by character. JavaScript's `sort()` works in place and orders UTF-16 code units, which differ from character order only above U+FFFF. The keys sorted here are digit strings.
- The index is a Dafny map that starts empty. In JavaScript, `name_part in name_index` is also true for names inherited from `Object.prototype`, such as `constructor`. A token starting with such a name would make `push` fail, and this is not modelled.
- `indexOf(x) == -1` is modelled as `x !in list`.
- GeoIndex.IndexPrefixes: counts a token's length and its prefixes `substr(0, k)` in characters. JavaScript counts UTF-16 code units, which differ only for characters above U+FFFF: such a character gives JavaScript two prefixes, one ending in half a surrogate pair, where the model has one. The same holds for GeoIndex.AddPrefixes.
- Autocomplete.Substr0: takes the first n characters, where JavaScript's `substr` takes n UTF-16 code units, and the query length n is counted the same way. The ranking's full-name prefix and `on_select`'s two-character FIPS prefix therefore differ from JavaScript's only for text holding characters above U+FFFF.
- Autocomplete.Source: requires every indexed key to have a name and a full name. `Autocompleter.Valid` keeps this, and `IndexAfterNamed` proves it of what `index_geographies` builds. The TypeError that `on_source` would throw on an unnamed key is therefore not modelled.
- Autocomplete.Autocompleter.OnSource: `suggestion_fips` is built in a local map and stored once the loop ends. `on_source` clears it first and fills it as it goes. Nothing can observe the difference, because the loop cannot throw under Valid.
- The DOM loop of `on_select`, which marks the matching `<option>`, and the jQuery wiring of `get_autocomplete`'s return value are not modelled. The model stops at the state code.
