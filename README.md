# Paging helpers of the Mujin web stack client, in Dafny

This project models the paging core of the Python web stack client. It covers two files.

- `webstackclientutils.py` holds the REST helpers:
  - `QueryIterator`, which streams one large list query as pages of at most `maxQueryLimit` (100) items;
  - `QueryResult`, a list-like container that fetches one page at construction and serves indexing from a one-page cache;
  - the materialise-then-list operations of `QueryResult`;
  - the `UseQueryResult` decorator.
- `webstackgraphclientutils.py` holds the GraphQL text builder and the graph paging helpers:
  - `_IsScalarType`, `_StringifyQueryFields`, and the query text and `variables` map that `_CallSimpleGraphAPI` builds;
  - `GraphQueryIterator`, `GraphQueryResult`, and the reshaping done by `UseGraphQueryResult`.

Modules:

- `Wrappers`: Option, and a Result whose errors are Python's `IndexError`, `ValueError` and `TypeError`.
- `Paging`:
  - the page constant and the clamp of a requested limit to a page size;
  - `Slice`, the page a server answers;
  - `Window`, what a whole run promises;
  - the fetch step both iterators share (`Settle`, `FetchStep`, `SettlePage`).
- `PyList`: the Python list operations a materialised result forwards to, with Python's index rules and exceptions.
- `WebstackClientUtils`:
  - the REST server model (`Fetch`);
  - the tagged decorator wrapper (`QueryFunction`, `Target`);
  - the `QueryIterator` and `QueryResult` classes;
  - the `__getitem__` step function.
- `GraphQueryText`: the selection tree, its rendering, and the query, variables and timeout of a simple graph call.
- `SelectionSyntax`: a parser for the rendered selection. It proves that rendering loses nothing but the tree's spelling (`RoundTrip`).
- `WebstackGraphClientUtils`:
  - the graph server model (`Respond`) and the three response shapes;
  - the `meta.totalCount` insertion;
  - the `GraphQueryIterator` and `GraphQueryResult` classes;
  - the decorated call.

How the model is set up:

- **Server.** A query function is modelled by the fixed dataset it pages over for given positional arguments (`rows(args)`). A page fetch at offset `o` with limit `n` answers `rows[o .. min(o + n, |rows|)]`, together with a meta that carries the dataset's size as its total count and echoes the requested limit and offset (so a result's cached page always reports limit 100).
- **Graph server.** It answers according to the top-level names of the selection:
  - the operation's `__typename`, when nothing is selected or `__typename` is;
  - `meta.totalCount`, when `meta` is selected;
  - the page, under the list field's key, when that key is selected.
- **Iterators.** Each iterator is a class whose `Next` either returns an item or `None` for end of sequence (`StopIteration`). Ghost fields record:
  - the items yielded so far;
  - the number of fetches;
  - the caller's offset.
- **The iterator invariant.** `Valid` keeps these facts:
  - the yielded items followed by the buffer are a prefix of the whole run's result;
  - they are all of it once the run is stopped;
  - while the run goes on, the next fetch's offset is the caller's offset plus what was fetched so far, and less than the caller's limit has been fetched;
  - the page size is the clamped limit, and the count is the number of items yielded;
  - in an unlimited run, every fetch so far brought a full page until the run stopped, and the stopped run made `available / 100 + 1` fetches;
  - the total count is known exactly when a fetch was made (on the graph side: and `meta` is selected), and it is then the dataset's size;
  - on the graph side, the recorded key name is the response shape's key once a fetch was made, a meta-only run is never stopped, and a typename or meta-only run buffers nothing before it stops.
- **What a run yields.** `Collect` (the list comprehension over a REST iterator) is proved to yield exactly `Window(rows, offset, limit)`. That is all items from the offset when the limit is 0, and the first `min(limit, available)` of them otherwise. The items come in server order.
- **What a graph run yields.** `CollectGraph` is proved to yield exactly `GraphExpected`, which depends on the response shape:
  - the `__typename` alone, for a `__typename` answer;
  - that same window, for pages of the list field;
  - nothing, for answers carrying only meta data.
- **Containers.** A container's `Contents()` is the list it stands for. Every operation states how it changes or keeps `Contents()`.

## Model

| member | source | states |
|---|---|---|
| Paging.PageSize | python/mujinwebstackclient/webstackclientutils.py:40-43 | the page size lies in 1..100; it is the requested limit when that is 1..100, and 100 when the request is 0 or at least 100 |
| Paging.Slice | python/mujinwebstackclient/webstackclientutils.py:70-72 | a page at an offset holds min(n, available) items, and its i-th item is the dataset's item at offset + i |
| Paging.Window | python/mujinwebstackclient/webstackclientutils.py:74-80 | a run yields every item from the offset when the limit is 0, otherwise min(limit, available) of them; items come in server order and form a prefix of the dataset from the offset |
| Paging.FetchStep | python/mujinwebstackclient/webstackclientutils.py:70-80 | after a fetch at the current offset: a short page completes the run; a page reaching the limit completes it once truncated; a full page keeps the seen items a prefix of the run |
| Paging.Settle | python/mujinwebstackclient/webstackclientutils.py:74-80 | the run stops exactly when the page is short or reaches the caller's limit; the buffer is the page, truncated to the rest of the allowance when the limit is reached and kept whole otherwise |
| Paging.SettlePage | python/mujinwebstackclient/webstackclientutils.py:70-82 | a settled fetch keeps returned plus buffered items a prefix of the run, is all of it once stopped, stays under the limit otherwise, and counts one fetch per full page without a limit |
| Paging.FetchCountUnlimited | python/mujinwebstackclient/webstackclientutils.py:74-76 | without a limit a run makes available / 100 + 1 page fetches |
| PyList.Get | python/mujinwebstackclient/webstackclientutils.py:155-156 | list indexing succeeds exactly for -len <= index < len, reading a negative index from the end; any other index raises IndexError |
| PyList.GetNegative | python/mujinwebstackclient/webstackclientutils.py:158-159 | index i - len names the same item as index i |
| PyList.SetItem | python/mujinwebstackclient/webstackclientutils.py:182-184 | assignment succeeds exactly for an index in range, replaces that one item and keeps the rest |
| PyList.DelItem | python/mujinwebstackclient/webstackclientutils.py:252-254 | deletion succeeds exactly for an index in range and shifts the later items down by one |
| PyList.InsertPosition | python/mujinwebstackclient/webstackclientutils.py:194-196 | the insertion index is read as a slice bound clamped to 0..len |
| PyList.Insert | python/mujinwebstackclient/webstackclientutils.py:194-196 | the item lands at the clamped position, with the items before and after it unchanged |
| PyList.Index | python/mujinwebstackclient/webstackclientutils.py:198-202 | the answer is the first position of the item within the clamped bounds, or ValueError when no position in them holds it |
| PyList.Search | python/mujinwebstackclient/webstackclientutils.py:198-202 | the first position in lo..hi-1 holding the item, or ValueError when none does |
| PyList.Count | python/mujinwebstackclient/webstackclientutils.py:208-210 | the count is the item's multiplicity, and 0 exactly when the item is absent |
| PyList.Remove | python/mujinwebstackclient/webstackclientutils.py:212-214 | removal succeeds exactly when the item is present, and drops its first occurrence with the other items in order; otherwise ValueError |
| PyList.Pop | python/mujinwebstackclient/webstackclientutils.py:204-206 | popping succeeds exactly on a non-empty list, giving the last item and the rest; otherwise IndexError |
| PyList.Reverse | python/mujinwebstackclient/webstackclientutils.py:216-218 | the reversal has the same length, and item i is item len-1-i of the input |
| PyList.ReverseReverse | python/mujinwebstackclient/webstackclientutils.py:244-246 | reversing twice gives the list back |
| WebstackClientUtils.Target | python/mujinwebstackclient/webstackclientutils.py:28-31 | a raw function is used with the given arguments; a decorated one is unwrapped to its inner function, with the bound client prepended to the arguments |
| WebstackClientUtils.WithDefaults | python/mujinwebstackclient/webstackclientutils.py:36-37 | a missing offset or limit becomes 0, and a given one is kept |
| WebstackClientUtils.Fetch | python/mujinwebstackclient/webstackclientutils.py:70-71 | the server answers the slice at the requested offset and limit, with the dataset's size as its total count |
| WebstackClientUtils.QueryIterator.constructor | python/mujinwebstackclient/webstackclientutils.py:25-43 | unwraps a decorated function; defaults offset and limit to 0; keeps the unclamped limit as the total limit; sets the page size with PageSize; starts with an empty buffer, not stopped |
| WebstackClientUtils.QueryIterator.Next | python/mujinwebstackclient/webstackclientutils.py:54-82 | a non-empty buffer yields its front item with no fetch; an ended run answers None and changes nothing; otherwise it fetches once, the stop flag becomes `Settle`'s verdict on the fetched page, and the call answers that page's first item (leaving the rest buffered) or None on an empty page; a None answer means everything wanted was yielded in order |
| WebstackClientUtils.QueryIterator.FetchPage | python/mujinwebstackclient/webstackclientutils.py:69-80 | one fetch records the total count and advances the offset by the untruncated page length; the new buffer and stop flag are `Settle` of the fetched page: stopped exactly when the page is short or reaches the limit, truncated to the rest of the allowance then; the iterator invariant holds |
| WebstackClientUtils.Collect | python/mujinwebstackclient/webstackclientutils.py:143 | draining an iterator yields exactly what the run still had to deliver, and leaves it ended |
| WebstackClientUtils.LengthUnfetched | python/mujinwebstackclient/webstackclientutils.py:150-152 | the unmaterialised length is never negative, at most the total minus the offset, and at most a positive limit |
| WebstackClientUtils.LengthUnfetchedIsWindowLength | python/mujinwebstackclient/webstackclientutils.py:147-152 | that length is the length of the window a full run delivers |
| WebstackClientUtils.LookupStep | python/mujinwebstackclient/webstackclientutils.py:158-171 | an index is refused exactly when it lies outside -len..len-1; an in-range index hits exactly when its absolute offset lies in the cached page, at that offset's position; anything else refetches the page at that offset |
| WebstackClientUtils.RefetchThenHit | python/mujinwebstackclient/webstackclientutils.py:164-171 | after a refetch, the retry is served from the new page's first position, so the recursion is one level deep |
| WebstackClientUtils.LookupStepAsWritten | python/mujinwebstackclient/webstackclientutils.py:158-171 | the pass as written refuses exactly the indexes at or above the length; a negative index is shifted once; an index not refused hits exactly when its shifted absolute offset lies in the cached page, and the hit position and refetch offset follow from the shifted index |
| WebstackClientUtils.AsWrittenAgreesAboveMinusLength | python/mujinwebstackclient/webstackclientutils.py:158-171 | for indexes from minus the length up, the pass as written decides what the corrected pass decides; below minus the length, the corrected pass refuses and the pass as written does not |
| WebstackClientUtils.NegativeIndexAsWritten | python/mujinwebstackclient/webstackclientutils.py:158-171 | on an empty result over items 5.. of a five-item dataset, the code as written serves index -1 with dataset item 4, where a list raises IndexError |
| WebstackClientUtils.QueryResult.constructor | python/mujinwebstackclient/webstackclientutils.py:97-106 | defaults offset and limit to 0, caches the page at the offset, is not materialised, and stands for the window of the dataset |
| WebstackClientUtils.QueryResult.APICall | python/mujinwebstackclient/webstackclientutils.py:115-122 | sets the stored offset to its argument and the limit to 100, caches that page with its meta data, and records its offset |
| WebstackClientUtils.QueryResult.TotalCount | python/mujinwebstackclient/webstackclientutils.py:124-126 | the total count is the dataset's size |
| WebstackClientUtils.QueryResult.MetaLimit | python/mujinwebstackclient/webstackclientutils.py:128-130 | the `limit` property is the cached page's limit, 100, not the caller's |
| WebstackClientUtils.QueryResult.MetaOffset | python/mujinwebstackclient/webstackclientutils.py:132-134 | the `offset` property is the cached page's offset |
| WebstackClientUtils.QueryResult.Length | python/mujinwebstackclient/webstackclientutils.py:147-152 | `len` is the length of the list the result stands for, materialised or not |
| WebstackClientUtils.QueryResult.Show | python/mujinwebstackclient/webstackclientutils.py:173-176 | the display is a listing of the contents exactly when materialised, otherwise the placeholder |
| WebstackClientUtils.QueryResult.GetItem | python/mujinwebstackclient/webstackclientutils.py:154-171 | indexing answers exactly what Python list indexing of the contents answers, refetching the cache at most once; the contents do not change, a materialised result changes nothing, a hit or a refusal leaves the cache and its offset as they were, and a refetch leaves the cache at the wanted offset |
| WebstackClientUtils.QueryResult.Iter | python/mujinwebstackclient/webstackclientutils.py:108-113 | iterates over the materialised list, or restores the caller's offset and limit and returns a fresh iterator whose run delivers the contents |
| WebstackClientUtils.QueryResult.FetchAll | python/mujinwebstackclient/webstackclientutils.py:136-145 | materialises the contents into the list storage; a second call changes nothing |
| WebstackClientUtils.QueryResult.SetItem | python/mujinwebstackclient/webstackclientutils.py:182-184 | materialises, then list assignment on the contents, or its IndexError leaving the contents unchanged |
| WebstackClientUtils.QueryResult.Append | python/mujinwebstackclient/webstackclientutils.py:186-188 | materialises, then the contents with the item appended |
| WebstackClientUtils.QueryResult.Extend | python/mujinwebstackclient/webstackclientutils.py:190-192 | materialises, then the contents followed by the new items (also `+=`) |
| WebstackClientUtils.QueryResult.Insert | python/mujinwebstackclient/webstackclientutils.py:194-196 | materialises, then list insertion into the contents |
| WebstackClientUtils.QueryResult.Index | python/mujinwebstackclient/webstackclientutils.py:198-202 | materialises, then the list's index search, with a missing end taken as the length |
| WebstackClientUtils.QueryResult.Pop | python/mujinwebstackclient/webstackclientutils.py:204-206 | materialises, then pops the last item of the contents, or raises IndexError on an empty result |
| WebstackClientUtils.QueryResult.Count | python/mujinwebstackclient/webstackclientutils.py:208-210 | materialises, then gives the item's multiplicity in the contents |
| WebstackClientUtils.QueryResult.Remove | python/mujinwebstackclient/webstackclientutils.py:212-214 | materialises, then removes the first occurrence, or raises ValueError leaving the contents unchanged |
| WebstackClientUtils.QueryResult.Reverse | python/mujinwebstackclient/webstackclientutils.py:216-218 | materialises, then the reversed contents |
| WebstackClientUtils.QueryResult.Add | python/mujinwebstackclient/webstackclientutils.py:228-230 | materialises, and answers a new list, the contents followed by the other items, leaving the contents unchanged |
| WebstackClientUtils.QueryResult.Reversed | python/mujinwebstackclient/webstackclientutils.py:244-246 | materialises, and yields the contents in reverse order |
| WebstackClientUtils.QueryResult.Contains | python/mujinwebstackclient/webstackclientutils.py:248-250 | materialises, and answers whether the item is in the contents |
| WebstackClientUtils.QueryResult.DelItem | python/mujinwebstackclient/webstackclientutils.py:252-254 | materialises, then list deletion, or its IndexError leaving the contents unchanged |
| WebstackClientUtils.QueryResult.Equals | python/mujinwebstackclient/webstackclientutils.py:256-260 | materialises both results; equal exactly when their contents are |
| WebstackClientUtils.QueryResult.EqualsList | python/mujinwebstackclient/webstackclientutils.py:256-260 | materialises, and is equal to a plain list exactly when the contents are that list |
| WebstackClientUtils.QueryResult.NotEquals | python/mujinwebstackclient/webstackclientutils.py:262-266 | materialises both results; unequal exactly when their contents differ |
| WebstackClientUtils.UseQueryResult | python/mujinwebstackclient/webstackclientutils.py:292-301 | the wrapper is tagged with the raw function as `inner`; an iterator built from it pages on the raw function, with the client as first argument |
| WebstackClientUtils.CallUseQueryResult | python/mujinwebstackclient/webstackclientutils.py:296-298 | the decorated call is a fresh, unmaterialised result over the raw function with the client prepended, standing for that dataset's window |
| GraphQueryText.IsScalarType | python/mujinwebstackclient/webstackgraphclientutils.py:9-22 | true exactly for Int, Float, String, Boolean, ID, Data, Any, Void and DateTime |
| GraphQueryText.Stringify | python/mujinwebstackclient/webstackgraphclientutils.py:24-36 | the rendered selection starts with `{` and ends with `}` |
| GraphQueryText.Rendered | python/mujinwebstackclient/webstackgraphclientutils.py:26-35 | a list renders its names as they are; a mapping renders one entry per key, in order, entry i being `entries[i]` rendered as its bare name or as its name and sub-selection |
| GraphQueryText.QueryFields | python/mujinwebstackclient/webstackgraphclientutils.py:58-64 | a scalar return type gets no selection whatever the fields; otherwise an empty or missing selection becomes `{ __typename }` and a non-empty one is rendered |
| GraphQueryText.Query | python/mujinwebstackclient/webstackgraphclientutils.py:79-85 | the query text starts with the operation keyword, a space and the operation name, and ends with a newline and the closing brace; its whole form is given by the three lemmas below |
| GraphQueryText.QueryWithoutParameters | python/mujinwebstackclient/webstackgraphclientutils.py:65-85 | with no parameters, neither the operation nor the call has parentheses, and the selection follows the name with no space |
| GraphQueryText.QueryWithParameters | python/mujinwebstackclient/webstackgraphclientutils.py:65-85 | with parameters, the `$n: T` declarations and `n: $n` arguments appear in parameter order, parenthesised, and the selection is set off by one space |
| GraphQueryText.ScalarQueryHasNoSelection | python/mujinwebstackclient/webstackgraphclientutils.py:58-85 | for a scalar return type, the only braces in the query are those of the operation body |
| GraphQueryText.BuildVariables | python/mujinwebstackclient/webstackgraphclientutils.py:86-88 | `variables` has exactly the parameter names as keys, and each maps to the value of the last parameter with that name |
| GraphQueryText.Timeout | python/mujinwebstackclient/webstackgraphclientutils.py:56-57 | the timeout is 5.0 unless one is given |
| GraphQueryText.BuildRequest | python/mujinwebstackclient/webstackgraphclientutils.py:56-91 | the call hands the transport the query text, the variables map and the timeout |
| SelectionSyntax.CanonRenders | python/mujinwebstackclient/webstackgraphclientutils.py:24-36 | a list of names renders like a mapping of those names to nothing, and empty sub-trees render like missing ones |
| SelectionSyntax.RoundTrip | python/mujinwebstackclient/webstackgraphclientutils.py:24-36 | the rendered selection of a well-named tree parses back to the tree's canonical form |
| SelectionSyntax.RendersAlike | python/mujinwebstackclient/webstackgraphclientutils.py:24-36 | two well-named trees render alike exactly when their canonical forms agree |
| WebstackGraphClientUtils.WithOptionDefaults | python/mujinwebstackclient/webstackgraphclientutils.py:129-132 | missing or None options become offset 0 and first 0, and a missing entry becomes 0 |
| WebstackGraphClientUtils.Respond | python/mujinwebstackclient/webstackgraphclientutils.py:166-177 | the answer carries meta exactly when `meta` is selected, `__typename` exactly when nothing or `__typename` is selected, and the page exactly when the list field is selected |
| WebstackGraphClientUtils.ShapeOfResponse | python/mujinwebstackclient/webstackgraphclientutils.py:170-177 | the branch taken (`__typename`, meta only, data) depends on the selection alone, and each branch matches its response shape |
| WebstackGraphClientUtils.ShapeKey | python/mujinwebstackclient/webstackgraphclientutils.py:170-177 | the recorded key name is `__typename` for that branch, the list field's key for data, and unset for a meta-only answer |
| WebstackGraphClientUtils.GraphExpected | python/mujinwebstackclient/webstackgraphclientutils.py:150-188 | a graph run delivers the `__typename` alone, the wanted window of the dataset, or nothing, by shape |
| WebstackGraphClientUtils.WithTotalCount | python/mujinwebstackclient/webstackgraphclientutils.py:219-222 | adding `meta.totalCount` succeeds exactly on a mapping whose `meta`, if present, is a mapping; the result selects `meta.totalCount`, keeps every other entry, and adds at most one |
| WebstackGraphClientUtils.WithTotalCountIdempotent | python/mujinwebstackclient/webstackgraphclientutils.py:219-222 | adding `meta.totalCount` a second time changes nothing |
| WebstackGraphClientUtils.StoredFields | python/mujinwebstackclient/webstackgraphclientutils.py:219-222 | given fields are stored with `meta` selected, and missing fields stay missing |
| WebstackGraphClientUtils.GraphQueryIterator.constructor | python/mujinwebstackclient/webstackgraphclientutils.py:118-139 | unwraps a decorated function; defaults the options; keeps the unclamped `first` as the total limit; uses PageSize as the page `first`; the fields default to `{}` |
| WebstackGraphClientUtils.GraphQueryIterator.Next | python/mujinwebstackclient/webstackgraphclientutils.py:150-188 | a non-empty buffer yields its front item; a stopped run with an empty buffer answers None and changes nothing; otherwise it fetches once: on a data page the stop flag becomes `Settle`'s verdict and the call answers the page's first item (leaving the rest buffered) or None on an empty page; on a `__typename` answer it returns the typename with the run stopped; on a meta-only answer it returns None; a None answer means the whole expected result was yielded |
| WebstackGraphClientUtils.GraphQueryIterator.Pop | python/mujinwebstackclient/webstackgraphclientutils.py:155-159 | the front item leaves the buffer, is counted, and is appended to what has been yielded |
| WebstackGraphClientUtils.GraphQueryIterator.FetchPage | python/mujinwebstackclient/webstackgraphclientutils.py:166-186 | records the total count exactly when `meta` is selected; a `__typename` answer becomes a one-item buffer and stops the run; a page of the list field becomes the buffer and stop flag `Settle` gives; a meta-only answer ends the sequence without stopping the run |
| WebstackGraphClientUtils.GraphQueryIterator.TakePage | python/mujinwebstackclient/webstackgraphclientutils.py:178-186 | the offset advances by the untruncated page length; the buffer and stop flag are `Settle(page, count, totalLimit, first)`: stopped exactly when the page is short or reaches the limit, truncated to the rest of the allowance then; the iterator invariant holds |
| WebstackGraphClientUtils.GraphQueryIterator.PageProgress | python/mujinwebstackclient/webstackgraphclientutils.py:178-186 | a settled page carries the run forward: returned plus buffered items stay a prefix of the expected result, and are all of it once stopped |
| WebstackGraphClientUtils.CollectGraph | python/mujinwebstackclient/webstackgraphclientutils.py:266 | draining a graph iterator yields exactly what its run still had to deliver |
| WebstackGraphClientUtils.PageHit | python/mujinwebstackclient/webstackgraphclientutils.py:234-238 | a lookup hit in a page of the clamped size lies inside that page and is the window's item at that index |
| WebstackGraphClientUtils.GraphQueryResult.constructor | python/mujinwebstackclient/webstackgraphclientutils.py:209-224 | defaults the options; stores the fields with `meta.totalCount` added; calls the function once; is materialised exactly for a `__typename` answer; stands for what a full run delivers |
| WebstackGraphClientUtils.GraphQueryResult.APICall | python/mujinwebstackclient/webstackgraphclientutils.py:231-248 | calls on a copy with the clamped `first` at the given offset; `__typename` materialises a one-item list; a page goes to the cache, not the list; a meta-only answer leaves both |
| WebstackGraphClientUtils.GraphQueryResult.KeyName | python/mujinwebstackclient/webstackgraphclientutils.py:250-255 | the key name is `__typename`, the list field's key, or None, by response shape |
| WebstackGraphClientUtils.GraphQueryResult.TotalCount | python/mujinwebstackclient/webstackgraphclientutils.py:257-261 | the total is known exactly when `meta` is selected, which it always is when fields were given, and is then the dataset's size |
| WebstackGraphClientUtils.GraphQueryResult.Length | python/mujinwebstackclient/webstackclientutils.py:147-152 | `len` is the materialised list's length, or the window's length, which is the contents' length except for meta-only answers |
| WebstackGraphClientUtils.GraphQueryResult.GetItem | python/mujinwebstackclient/webstackclientutils.py:154-171 | for a page result, indexing answers list indexing of the contents; a meta-only result raises TypeError for an index within its length; a hit or a refusal changes nothing, and a refetch leaves the cache at the wanted offset |
| WebstackGraphClientUtils.GraphQueryResult.RefetchOnlyFullPages | python/mujinwebstackclient/webstackgraphclientutils.py:234-237 | a refetch happens only when the page size is the full 100 |
| WebstackGraphClientUtils.GraphQueryResult.Iter | python/mujinwebstackclient/webstackgraphclientutils.py:226-229 | iterates over the materialised list, or returns a fresh graph iterator over the stored arguments, whose run delivers the contents |
| WebstackGraphClientUtils.GraphQueryResult.FetchAll | python/mujinwebstackclient/webstackgraphclientutils.py:263-268 | materialises the contents into the list storage; a second call changes nothing |
| WebstackGraphClientUtils.GraphQueryResult.Show | python/mujinwebstackclient/webstackgraphclientutils.py:270-273 | the display is a listing of the contents exactly when materialised |
| WebstackGraphClientUtils.CallUseGraphQueryResult | python/mujinwebstackclient/webstackgraphclientutils.py:279-288 | the reply holds `__typename` (the type's name) or the list field's key mapped to an unmaterialised result standing for the window, by shape; plus `meta.totalCount` exactly when fields were given, equal to the dataset's size |

## Left out

- Network and transport. The `CallGraphAPI` call and the query functions themselves are replaced by the fixed-dataset server models `Fetch` and `Respond`. `_CallSimpleGraphAPI` is modelled up to the request it hands over (`BuildRequest`). Its final `data.get(operationName)` happens after the transport and is not modelled.
- Verbose logging in `_CallSimpleGraphAPI`: it has no effect on behaviour.
- Ordering comparisons (`__lt__`, `__gt__`, `__le__`, `__ge__`) and `sort`: they depend on an element ordering the model does not have.
- `__mul__`, `__rmul__` and `__imul__`: plain list repetition after `FetchAll`.
- Python mechanics:
  - `functools.wraps` and the `hasattr`/`__self__` probing are an explicit tagged wrapper (`QueryFunction`);
  - `copy.deepcopy` is value semantics of the options records;
  - the `__next__` alias of `next` and the iterator's own `__iter__` are not modelled.
- `__repr__` is modelled only as the listing/placeholder distinction.
- Slice indexes (`result[a:b]`) in `__getitem__`, `__setitem__` and `__delitem__` are not modelled: the model takes integer indexes only.
- Negative offsets and limits: offsets, limits and `first` are natural numbers.
- Keyword arguments other than offset and limit (REST), and other than options and fields (graph), are not modelled.
- The timeout is passed through as given; only its default is modelled.
- A graph answer with several data keys: the server model answers the one list field, so "the first remaining key" is that key.
- A graph answer that selects both `__typename` and the list field follows the `__typename` branch, as the code does.
- `WebstackGraphClientUtils.GraphQueryResult.constructor` and `WebstackGraphClientUtils.CallUseGraphQueryResult`: require that given fields be a mapping whose `meta`, if present, is a mapping. On any other selection, the code's `setdefault` calls raise before any fetch.
- The list operations of `GraphQueryResult` are inherited from `QueryResult` unchanged. They are modelled once, on `WebstackClientUtils.QueryResult`.
- `QueryResult` is built over a raw function, as the decorator builds it. Building one over a decorated method passes the bound client along again, and that is left out.
- `WebstackClientUtils.QueryResult.GetItem` and `WebstackGraphClientUtils.GraphQueryResult.GetItem` follow the corrected index check of the finding below, not the code as written.
- `WebstackGraphClientUtils.GraphQueryResult.GetItem`: for a meta-only answer and an index within the length, it states TypeError, which is Python indexing None. It does not state a page's contents, since there is none.
- `WebstackGraphClientUtils.GraphQueryResult.Length`: on meta-only answers, it states the window's length rather than the contents' length. The code counts the server's items there, although iteration yields none.

## Findings

| source | as written | input that shows it | evidently intended | confidence | as-written member | corrected member |
|---|---|---|---|---|---|---|
| python/mujinwebstackclient/webstackclientutils.py:158-171 | a negative index is shifted by the length once, and only an index at or above the length is refused; an index below minus the length goes on to refetch the page at an offset before the caller's and is answered from it | a five-item dataset, offset 5, no limit (length 0), `result[-1]`: the page at offset 4 is fetched and dataset item 4 is returned | Python list indexing: IndexError for any index below minus the length | not executed | WebstackClientUtils.LookupStepAsWritten, WebstackClientUtils.NegativeIndexAsWritten | WebstackClientUtils.LookupStep, WebstackClientUtils.QueryResult.GetItem |
