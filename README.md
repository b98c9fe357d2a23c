# Superlinked recipes: a verified model of the e-commerce and hotel-search cores

This project models the application logic of four parts of the Superlinked
recipe repository in Dafny, and proves properties of that model:

- **e-commerce wrapper service** (`wrapper/kv/redis.py`, `wrapper/endpoint.py`):
  - the per-user topic recency cache: one Redis sorted set per user, with topics scored by event time;
  - the `call_sl_url` request helper and its outcome classes;
  - the dummy user record and metadata cleaning;
  - popularity recommendations, which interleave per-topic lists;
  - event ingestion, which creates composite users and records topics;
  - user recommendations with their popularity fallback.
- **item2vec trainer** (`item2vec/item2vec.py`):
  - the dot-notation `Config`;
  - schema field-name and custom-space discovery;
  - the `DataFrameSentences` sentence iterator: sort, group, filter, length cache, shuffle and vocabulary counting;
  - the file-format dispatch of `load_data`;
  - column resolution in `main`.
- **shop front end** (`flask-ui/app/utils.py`, `flask-ui/app/routes.py`):
  - product lookups by SKU and by category levels;
  - the nested and the flat category hierarchies;
  - random sampling;
  - `process_image_url`, the recommendation call and event firing;
  - the views, which share session guards: index, home, category pages (with the 500-product cap), product page, add to cart, search (with the `no_cache` headers), starting and resetting a session.
- **hotel-search front end** (`frontend_app/app/utils/utils.py`, `frontend_app/app/frontend/components.py`):
  - the kick-start queries;
  - flattening a search response;
  - cleaning kNN parameters;
  - the Markdown builders `format_filters` and `format_amenities`;
  - the country-flag lookup of `format_header`.

How the model is built:

- **Values.** Python values are the `Common.Json` datatype: dicts are `map`s, lists are `seq`s, numbers are `int`s. Exceptions become the `Err` case of a `Result`, carrying the text Python would print.
- **Mutable state.** The Redis store, the wrapper's `AppState`, the item2vec `Config` and `DataFrameSentences`, and Flask's session are classes. Their methods change fields under `modifies` clauses.
- **Loops.** Loops in the source are `while` loops. Each is proved equal to a specification function, and the properties are proved about that function.
- **Outside inputs.** The network, the clock, `uuid`, and some Redis failures are parameters:
  - the vector service is a function from request to transport outcome;
  - the front end's HTTP calls are a function from (URL, params) to reply;
  - the reachability of an https URL is a predicate;
  - a fault parameter says where a Redis command fails.
- **Randomness.** `random.shuffle` and `df.sample` are modelled as some permutation or sub-multiset, chosen by `:|`.

Modules: `Common` (`common.dfy`), `RedisKv` (`redis_kv.dfy`), `Endpoint`
(`endpoint.dfy`), `WrapperApp` (`wrapper_app.dfy`), `Item2vec`
(`item2vec.dfy`), `FlaskUtils` (`flask_utils.dfy`), `FlaskRoutes`
(`flask_routes.dfy`), `HotelUtils` (`hotel_utils.dfy`), `HotelComponents`
(`hotel_components.dfy`).

## Model

| member | source | states |
|---|---|---|
| Common.PyTake | projects/e-commerce/wrapper/endpoint.py:206 | Python's `s[:n]`: the first `min(n, len)` elements, or all but the last `-n` for negative `n` |
| Common.Subscript | projects/hotel-search/frontend_app/app/utils/utils.py:23-27 | `v[key]` on a dict gives the value, and a missing key gives the KeyError text `'key'`; lists, strings and scalars give Python's TypeError text |
| Common.IntToStringParses | projects/e-commerce/wrapper/endpoint.py:227 | the decimal form of an int parses back to that int, so `int(str(n)) == n` |
| Common.MapAll | projects/hotel-search/frontend_app/app/utils/utils.py:21-29 | applying a fallible step to each element fails exactly when some element fails; otherwise the results are pointwise and the same length |
| Common.MapAllFirstError | projects/hotel-search/frontend_app/app/utils/utils.py:21-29 | when every earlier element succeeds, the message is that of the first failing element |
| Common.Iterate | projects/hotel-search/frontend_app/app/frontend/components.py:76 | Python iteration: a list gives its elements, a string its characters, and other values `'T' object is not iterable` |
| RedisKv.UserKey | projects/e-commerce/wrapper/kv/redis.py:16 | the key is `user_topics_set:` followed by the user id |
| RedisKv.UserKeyInjective | projects/e-commerce/wrapper/kv/redis.py:16-29 | distinct users have distinct keys, so a write for one user never touches another user's set |
| RedisKv.ZAdd | projects/e-commerce/wrapper/kv/redis.py:17 | after ZADD the member has the new score, the members are the old ones plus it, and other scores are unchanged |
| RedisKv.ZAddCardinality | projects/e-commerce/wrapper/kv/redis.py:17 | re-adding a member never duplicates it; the set grows by one exactly for a new member |
| RedisKv.ZAddLastWins | projects/e-commerce/wrapper/kv/redis.py:17 | two ZADDs of one member are the same as the last one alone |
| RedisKv.AheadIrreflexive | projects/e-commerce/wrapper/kv/redis.py:31 | the ZREVRANGE order (score descending, then member descending) is irreflexive |
| RedisKv.AheadTransitive | projects/e-commerce/wrapper/kv/redis.py:31 | the ZREVRANGE order is transitive |
| RedisKv.AheadTotal | projects/e-commerce/wrapper/kv/redis.py:31 | any two distinct members are ordered one way or the other |
| RedisKv.FirstExists | projects/e-commerce/wrapper/kv/redis.py:31 | every non-empty set of members has a first member in ZREVRANGE order |
| RedisKv.RangeCount | projects/e-commerce/wrapper/kv/redis.py:31 | `ZREVRANGE 0 stop` returns `min(stop+1, card)` members for `stop >= 0`, and `max(0, card+stop+1)` for negative `stop` |
| RedisKv.TopCount | projects/e-commerce/wrapper/kv/redis.py:31 | `top >= 1` gives at most `top` topics; `top == 0` (stop -1) gives every topic |
| RedisKv.RankedDistinct | projects/e-commerce/wrapper/kv/redis.py:31 | a list in ZREVRANGE order has no duplicates |
| RedisKv.RevRangeUnique | projects/e-commerce/wrapper/kv/redis.py:31 | the answer of a range read is fully determined by the set and the range end |
| RedisKv.FullRangeCovers | projects/e-commerce/wrapper/endpoint.py:423 | a full range read lists every member of the set exactly once |
| RedisKv.FirstIsMostRecent | projects/e-commerce/wrapper/kv/redis.py:30-32 | the first topic returned has the highest score, which is the latest `created_at` |
| RedisKv.TopicStore.constructor | projects/e-commerce/wrapper/kv/redis.py:6-8 | a new store has no sets and no expiries |
| RedisKv.TopicStore.SetAt | projects/e-commerce/wrapper/kv/redis.py:29-31 | the sorted set under a key, empty for a key that does not exist |
| RedisKv.TopicStore.SetUserEventTopic | projects/e-commerce/wrapper/kv/redis.py:10-22 | only the user's key changes. The outcome per fault is exact: a failing ZADD is re-raised and changes nothing. A successful ZADD replaces or inserts the topic's score. EXPIRE runs only for a truthy ttl, and a failing EXPIRE is re-raised after the ZADD |
| RedisKv.TopicStore.GetUserTopics | projects/e-commerce/wrapper/kv/redis.py:24-35 | a failing read gives `[]`; otherwise the result is exactly ZREVRANGE `0..top-1` of the user's set, which is `[]` for an unknown user |
| Endpoint.RequestFor | projects/e-commerce/wrapper/endpoint.py:112-119 | a request is made exactly for a known path name, to the base URL plus that path; its body is `data`, or `{}` for a falsy `data` |
| Endpoint.CallSlUrl | projects/e-commerce/wrapper/endpoint.py:110-141 | ValueError `Invalid path name: …` exactly for an unknown path name; otherwise a `(status, body)` reply |
| Endpoint.Call | projects/e-commerce/wrapper/endpoint.py:110-141 | a call over a network oracle fails exactly for an unknown path name and otherwise classifies the network's answer to the request |
| Endpoint.CallSlUrlOutcomes | projects/e-commerce/wrapper/endpoint.py:119-141 | blank text gives `{}`; undecodable text gives the `Invalid JSON response` body with the raw text; decodable text gives the decoded body; 4xx/5xx, request failures and other errors give status 500 with `{"error": …}` |
| Endpoint.CallSlUrlStatus | projects/e-commerce/wrapper/endpoint.py:119-141 | a status other than 500 is the HTTP status itself, and a status that `raise_for_status` accepts is passed through |
| Endpoint.EntriesOf | projects/e-commerce/wrapper/endpoint.py:204-213 | `results['entries']` is a list exactly when the body is a dict with a list under `entries`; a missing key gives KeyError `'entries'` |
| Endpoint.EntriesLen | projects/e-commerce/wrapper/endpoint.py:168-170 | `len(data['entries'])`, as `check_user_exist` reads it, is the number of entries; it fails without an `entries` key |
| Endpoint.ZipLen | projects/e-commerce/wrapper/endpoint.py:208 | `len(zip(*recs))` is the length of the shortest list |
| Endpoint.Columns | projects/e-commerce/wrapper/endpoint.py:208 | the tuples of `zip(*recs)`, one per position of the shortest list, each taking position `i` of every list |
| Endpoint.InterleaveSpec | projects/e-commerce/wrapper/endpoint.py:208-296 | the interleave puts `recs[j][i]` at position `i*k + j`, and its length is `min(limit, k * shortest)` |
| Endpoint.InterleaveFrom | projects/e-commerce/wrapper/endpoint.py:208-296 | every interleaved element comes from one of the lists |
| Endpoint.CleanItem | projects/e-commerce/wrapper/endpoint.py:188-192 | a cleaned dict item has the same keys and the same values outside `metadata` |
| Endpoint.CleanItemSpec | projects/e-commerce/wrapper/endpoint.py:190-191 | the new metadata is the old one without `vector_parts`; items without metadata or without `vector_parts` pass unchanged |
| Endpoint.CleanItemIdempotent | projects/e-commerce/wrapper/endpoint.py:186-193 | cleaning a cleaned item changes nothing |
| Endpoint.CleanAll | projects/e-commerce/wrapper/endpoint.py:186-193 | all items cleaned, same length and order, or the failure of some item |
| Endpoint.CleanMetadata | projects/e-commerce/wrapper/endpoint.py:186-193 | the copying loop computes exactly `CleanAll` |
| Endpoint.ErrPersists | projects/e-commerce/wrapper/endpoint.py:187-193 | once a prefix fails, the whole list fails with the same message |
| Endpoint.DummyUser | projects/e-commerce/wrapper/endpoint.py:144-154 | the record has id = user_id = x, empty topic/brand/type strings, exactly 100 zeros in `user_item_w2v`, and the empty image |
| WrapperApp.IndexByKeys | projects/e-commerce/wrapper/endpoint.py:80-81 | the id table has exactly the dataset's ids as keys |
| WrapperApp.IndexByLastWins | projects/e-commerce/wrapper/endpoint.py:80-81 | each id maps to the cell of the last row carrying it |
| WrapperApp.Lookup | projects/e-commerce/wrapper/endpoint.py:227-230 | `.get(k)` then `is None`: found exactly for a present, non-null value |
| WrapperApp.PopularityRequest | projects/e-commerce/wrapper/endpoint.py:209-212 | a truthy topic gives the `filtered_popularity` query with that topic, `query_product_type` equal to the product type when truthy and `""` otherwise, and limit 100; otherwise the `popularity` query with limit `max(limit, 100)` |
| WrapperApp.UserTopicRequests | projects/e-commerce/wrapper/endpoint.py:202-203 | one `filtered_popularity` query per stored topic, in the order read |
| WrapperApp.ShuffleTake | projects/e-commerce/wrapper/endpoint.py:204-216 | shuffle then `[:n]`: a sub-multiset of the entries, with length `min(n, len)` or Python's negative-slice length |
| WrapperApp.TakeWithin | projects/e-commerce/wrapper/endpoint.py:206 | a Python prefix is a sub-multiset of the list |
| WrapperApp.WithId | projects/e-commerce/wrapper/endpoint.py:225-226 | an event without `id` gets the fresh id; an event with one is unchanged; other keys are kept |
| WrapperApp.Encoded | projects/e-commerce/wrapper/endpoint.py:245-251 | ZADD gets the original user, the topic and the numeric `created_at`. A list or dict topic fails first with `unhashable type`, since the topic store builds `{topic: created_at}`; then values redis-py cannot encode give its error, score first |
| WrapperApp.EventRequest | projects/e-commerce/wrapper/endpoint.py:238-249 | the event is sent to `ingest_event` with `user` rewritten to the composite id, an id added, and the other fields kept |
| WrapperApp.AfterEventIngest | projects/e-commerce/wrapper/endpoint.py:239-246 | a topic is written and success reported exactly after a 2xx event ingest; otherwise nothing is answered |
| WrapperApp.PlanForTopic | projects/e-commerce/wrapper/endpoint.py:234-252 | success and the topic write happen together, for the event's user, after at least two requests, the last being the rewritten event |
| WrapperApp.PlanIngest | projects/e-commerce/wrapper/endpoint.py:221-256 | KeyError `'user'` or `'product'` for a missing key; the int conversion error for a bad product; `Missing data for product …` for an unknown topic; otherwise success iff the topic was written for the event's user |
| WrapperApp.IngestSequence | projects/e-commerce/wrapper/endpoint.py:234-252 | an existing composite user gets only the check and the event; a new one also gets the dummy record, ingested before the event |
| WrapperApp.AppState.constructor | projects/e-commerce/wrapper/endpoint.py:55-62 | `init` stores the base URL, the store, the dataset, the query config, the empty image and both id tables |
| WrapperApp.AppState.Recalc | projects/e-commerce/wrapper/endpoint.py:64-81 | reloading replaces the dataset and rebuilds both id tables; the query config is kept |
| WrapperApp.AppState.AllUserTopics | projects/e-commerce/wrapper/endpoint.py:421-423 | every stored topic, most recent first, each exactly once; `[]` on a Redis failure |
| WrapperApp.AppState.GetPopularity | projects/e-commerce/wrapper/endpoint.py:195-216 | the int error for a bad limit; the stored topics are the top 3 of the user's set. With stored topics, one `filtered_popularity` query per topic, and the result is `Interleave` (the flattened `zip(*recs)` cut to `limit`) of one shuffled prefix of each reply's entries; without, the single query and a shuffled prefix of its entries. A prefix has length `min(limit, len)` (Python slicing for a negative limit) and is a sub-multiset of the entries. An error is that of a query sent |
| WrapperApp.AppState.PopularityFor | projects/e-commerce/wrapper/endpoint.py:198-216 | the branch on stored topics after the limit is parsed: the per-topic queries and the interleave of shuffled prefixes, or the single query and its shuffled prefix, with the error of a query sent |
| WrapperApp.AppState.SinglePopularity | projects/e-commerce/wrapper/endpoint.py:209-216 | the single query's error, or a sub-multiset of its entries of length `min(n, len)` (Python slicing for negative `n`) |
| WrapperApp.PopularityFromSent | projects/e-commerce/wrapper/endpoint.py:198-216 | every item of a popularity result comes from a reply to a query sent, and there are at most `limit` of them |
| WrapperApp.AppState.PerTopicPopularity | projects/e-commerce/wrapper/endpoint.py:200-208 | the queries sent are a prefix of the per-topic queries (all of them on success); on success the result is `Interleave` of one shuffled prefix per reply, each a sub-multiset of that reply's entries of length `min(n, len)`; an error is that of some query |
| WrapperApp.AppState.GetUserRecommendations | projects/e-commerce/wrapper/endpoint.py:273-301 | topics are the top 3 of the user's set, and without topics it falls back. Without falling back there is one `user2item` query per composite id `user_topic`, and the result is `CleanAll` of `Interleave` of the replies' entries, cut to `limit`. Falling back, the result is `CleanAll` of the popularity result computed from the queries sent after the failed ones. Only the `user` entry of the query config may change |
| WrapperApp.AppState.PopularityFallback | projects/e-commerce/wrapper/endpoint.py:298-301 | the except branch: the queries already sent are kept, and the result is `CleanAll` of `get_popularity` for the user, computed (as stated for GetPopularity) from the queries it adds |
| WrapperApp.AppState.TopicRecommendations | projects/e-commerce/wrapper/endpoint.py:279-297 | one query per composite topic id, in order, with that id, the limit and the user's vector; the result is `CleanAll` of `Interleave` of the replies' entries, cut to `n` |
| WrapperApp.AppState.QueryEach | projects/e-commerce/wrapper/endpoint.py:285-295 | on success one `user2item` query per topic, in topic order, each for `"<user>_<topic>"` with that user's vector and the limit, and the entries of each reply kept in that order; the limit stays set in the parameter dict |
| WrapperApp.AppState.IngestEvent | projects/e-commerce/wrapper/endpoint.py:221-256 | the requests, the reply and the Redis write are exactly those of `PlanIngest`; a failing Redis write is reported as the failure |
| WrapperApp.AppState.IngestForTopic | projects/e-commerce/wrapper/endpoint.py:234-252 | carries out `PlanForTopic` once the product's topic is known |
| WrapperApp.AppState.RegisterAndSend | projects/e-commerce/wrapper/endpoint.py:235-252 | carries out the ingestion after the user lookup, creating the dummy user first when needed |
| WrapperApp.AppState.SendEvent | projects/e-commerce/wrapper/endpoint.py:239-252 | sends the rewritten event and, after a 2xx reply, writes the topic, as `AfterEventIngest` says |
| Item2vec.Config.constructor | projects/e-commerce/item2vec/item2vec.py:18-26 | the attributes are exactly the config dict |
| Item2vec.Config.ToDict | projects/e-commerce/item2vec/item2vec.py:33-35 | `to_dict` returns the attributes |
| Item2vec.ConfigRoundTrip | projects/e-commerce/item2vec/item2vec.py:25-35 | `Config(d).to_dict()` is `d`, and changing the returned copy leaves the config's own `to_dict()` equal to `d` |
| Item2vec.Role | projects/e-commerce/item2vec/item2vec.py:126-143 | only public attributes fill a role, and the role is one of id, created_at, product, user, event_type |
| Item2vec.FieldNamesOfSpec | projects/e-commerce/item2vec/item2vec.py:125-144 | a role is named exactly when some attribute fills it, and then by the last attribute that fills it |
| Item2vec.FieldNamesPublic | projects/e-commerce/item2vec/item2vec.py:126 | every named field is an attribute not starting with `_` |
| Item2vec.GetSchemaFieldNames | projects/e-commerce/item2vec/item2vec.py:112-146 | the loop builds the role-to-name dict: named iff filled, and by the last filler |
| Item2vec.ExtractCustomSpace | projects/e-commerce/item2vec/item2vec.py:149-158 | the first public attribute whose class name contains `FloatList`; without one, the bare `raise` error |
| Item2vec.SortEvents | projects/e-commerce/item2vec/item2vec.py:193 | `sort_values([user, created_at])` is a permutation of the events, sorted by user then time |
| Item2vec.GroupOfSorted | projects/e-commerce/item2vec/item2vec.py:193-201 | sorting does not change which events a user has |
| Item2vec.GroupTimeOrdered | projects/e-commerce/item2vec/item2vec.py:193-201 | in the sorted table each user's events are in `created_at` order |
| Item2vec.UsersAscending | projects/e-commerce/item2vec/item2vec.py:196-201 | the groups come out in ascending user order |
| Item2vec.ProductStrings | projects/e-commerce/item2vec/item2vec.py:199 | `[str(item) for item in x.tolist()]`, element by element |
| Item2vec.SequencesSpec | projects/e-commerce/item2vec/item2vec.py:188-208 | every kept sequence holds one user's products as strings, with the same multiset as that user's events and in time order. A user is kept iff they have more than one event. Users ascend |
| Item2vec.SortEventsStable | projects/e-commerce/item2vec/item2vec.py:193 | the two-column sort is stable: the events sharing one user and one time keep their input order |
| Item2vec.GroupKeepsTies | projects/e-commerce/item2vec/item2vec.py:193-201 | in a user's sequence, the products of events with equal time appear in the order of the input table |
| Item2vec.ShuffleSentence | projects/e-commerce/item2vec/item2vec.py:222-223 | a shuffled sentence is a permutation of it |
| Item2vec.AllProducts | projects/e-commerce/item2vec/item2vec.py:218-219 | the stored sentences, one per row in row order |
| Item2vec.DataFrameSentences.constructor | projects/e-commerce/item2vec/item2vec.py:166-208 | the table is sorted, the sequences are those of the preprocessing, and the length is not yet cached |
| Item2vec.DataFrameSentences.Len | projects/e-commerce/item2vec/item2vec.py:210-215 | the number of sequences, cached after the first call; the stored table and sequences are unchanged |
| Item2vec.DataFrameSentences.Sentences | projects/e-commerce/item2vec/item2vec.py:217-225 | one sentence per sequence; each is a permutation of its stored sequence, and equal to it without shuffle |
| Item2vec.DataFrameSentences.BuildVocab | projects/e-commerce/item2vec/item2vec.py:227-248 | each item maps to its number of occurrences across the sentences, only occurring items are keys, and the counts sum to the total length |
| Item2vec.CountUpdate | projects/e-commerce/item2vec/item2vec.py:240 | `Counter.update` adds one occurrence per item of the sentence |
| Item2vec.CountSentences | projects/e-commerce/item2vec/item2vec.py:237-240 | the counter after all sentences counts their concatenation |
| Item2vec.CountPermuted | projects/e-commerce/item2vec/item2vec.py:222-240 | shuffling the sentences changes no count and no total |
| Item2vec.CountSpec | projects/e-commerce/item2vec/item2vec.py:237-242 | the counter's keys are the items, each with its multiplicity |
| Item2vec.CountTotal | projects/e-commerce/item2vec/item2vec.py:237-242 | the counts over the distinct items sum to the number of items |
| Item2vec.RFind | projects/e-commerce/item2vec/item2vec.py:263 | the position of the last occurrence of a character, or -1 |
| Item2vec.Suffix | projects/e-commerce/item2vec/item2vec.py:263-267 | `Path.suffix` is empty, or a dot followed by at least one character and no further dot |
| Item2vec.LoadData | projects/e-commerce/item2vec/item2vec.py:251-270 | the reader is chosen exactly for `.json`, `.csv` and `.parquet`; the json and parquet readers get the row limit, the csv reader ignores it; any other suffix gives `Unsupported file format: …` |
| Item2vec.SuffixOfNestedPath | projects/e-commerce/item2vec/item2vec.py:263 | the suffix comes from the file name, not from a directory name |
| Item2vec.HiddenFileHasNoSuffix | projects/e-commerce/item2vec/item2vec.py:263-270 | `.csv` as a file name has no suffix and is refused |
| Item2vec.LastSuffixOnly | projects/e-commerce/item2vec/item2vec.py:263-270 | `a.csv.gz` has suffix `.gz` and is refused |
| Item2vec.ResolveColumn | projects/e-commerce/item2vec/item2vec.py:330-340 | the schema name if the table has it, else the fixed alternative if present, else the role name |
| Item2vec.Missing | projects/e-commerce/item2vec/item2vec.py:346 | exactly the required columns the table lacks |
| Item2vec.ResolveColumns | projects/e-commerce/item2vec/item2vec.py:329-348 | on success the three resolved columns exist; otherwise `Missing columns in events data: …` |
| Item2vec.ResolveColumnsFails | projects/e-commerce/item2vec/item2vec.py:334-348 | resolution fails exactly when some role has neither its schema name, nor its alternative, nor its own name among the columns |
| FlaskUtils.Filter | projects/e-commerce/flask-ui/app/utils.py:100-109 | a boolean mask keeps exactly the rows satisfying it, in order |
| FlaskUtils.FilterFilter | projects/e-commerce/flask-ui/app/utils.py:100-109 | two masks applied in turn are one mask of their conjunction |
| FlaskUtils.SkuInts | projects/e-commerce/flask-ui/app/utils.py:28 | each SKU converted with `int`, or the error of the first SKU that is not an integer |
| FlaskUtils.MissingSkus | projects/e-commerce/flask-ui/app/utils.py:29 | exactly the requested SKUs the table has no row for |
| FlaskUtils.ProductsBySkus | projects/e-commerce/flask-ui/app/utils.py:26-29 | every returned row is a row of the table |
| FlaskUtils.PoolKeepsRequested | projects/e-commerce/flask-ui/app/utils.py:29 | narrowing to the requested SKUs first does not change the rows found for a requested SKU |
| FlaskUtils.ProductsBySkusOrder | projects/e-commerce/flask-ui/app/utils.py:28-29 | when every SKU names one row, the result is one row per requested SKU, in request order |
| FlaskUtils.ProductsBySkusMissing | projects/e-commerce/flask-ui/app/utils.py:29 | a SKU the table lacks makes the lookup fail |
| FlaskUtils.GetFilteredProducts | projects/e-commerce/flask-ui/app/utils.py:98-109 | the KeyError of the first missing level column read, or exactly the rows matching the given levels |
| FlaskUtils.StepwiseIsMatch | projects/e-commerce/flask-ui/app/utils.py:100-109 | level 2 is applied only with level 1 and level 3 only with level 2; the stepwise masks equal the combined match |
| FlaskUtils.NoLevelKeepsAll | projects/e-commerce/flask-ui/app/utils.py:100-101 | without a first level every row is kept |
| FlaskUtils.AddCategory | projects/e-commerce/flask-ui/app/utils.py:82-94 | one loop step keeps the tree invariant for the rows seen so far |
| FlaskUtils.NestedCategoryHierarchy | projects/e-commerce/flask-ui/app/utils.py:74-96 | the KeyError for a missing category column, or the tree of the distinct category triples |
| FlaskUtils.TreeLeaves | projects/e-commerce/flask-ui/app/utils.py:88-94 | each inner list has no repeats and holds exactly the truthy third levels under its pair |
| FlaskUtils.TreePairs | projects/e-commerce/flask-ui/app/utils.py:84-87 | every (level1, level2) pair of the table is a key path of the tree |
| FlaskUtils.SortJson | projects/e-commerce/flask-ui/app/utils.py:45 | `sorted` gives a permutation in ascending order |
| FlaskUtils.SortedLevelSpec | projects/e-commerce/flask-ui/app/utils.py:45 | a level lists the distinct values of its column, ascending, without repeats |
| FlaskUtils.CategoryHierarchySpec | projects/e-commerce/flask-ui/app/utils.py:40-48 | the levels present are exactly those whose column exists, each with the sorted distinct values of its column |
| FlaskUtils.RandomProducts | projects/e-commerce/flask-ui/app/utils.py:22-24 | `min(n, len(df))` rows drawn without replacement; a negative `n` is refused |
| FlaskUtils.ImageUrl | projects/e-commerce/flask-ui/app/utils.py:50-72 | fails exactly for a truthy URL that is not a string |
| FlaskUtils.ImageUrlCases | projects/e-commerce/flask-ui/app/utils.py:52-72 | empty gives None; non-http URLs are unchanged; http becomes https when that answers 200, else the proxy URL |
| FlaskUtils.ImageUrlIdempotent | projects/e-commerce/flask-ui/app/utils.py:56-57 | an https result is returned unchanged when processed again |
| FlaskUtils.IdsOf | projects/e-commerce/flask-ui/app/utils.py:137 | the `id` of each item in order, when every item has one |
| FlaskUtils.RecommendationIdsSpec | projects/e-commerce/flask-ui/app/utils.py:130-139 | either the id of every response item, in response order, or `[]` on any failure |
| FlaskUtils.FireEvent | projects/e-commerce/flask-ui/app/utils.py:112-128 | posts user, product, event type and the current time to `/api/ingest/event`, and reports success iff a reply arrived whose status `raise_for_status` accepts (any status below 400) |
| FlaskRoutes.NoCache | projects/e-commerce/flask-ui/app/routes.py:20-28 | the view is kept; `Cache-Control`, `Pragma` and `Expires` get their fixed values; other headers are kept |
| FlaskRoutes.NoCacheIdempotent | projects/e-commerce/flask-ui/app/routes.py:20-28 | applying the decorator twice is the same as once |
| FlaskRoutes.Session.constructor | projects/e-commerce/flask-ui/app/routes.py:42-44 | a new session is empty |
| FlaskRoutes.Session.Start | projects/e-commerce/flask-ui/app/routes.py:41-45 | stores the fresh `user_id`, keeps the rest, and redirects home |
| FlaskRoutes.Session.Reset | projects/e-commerce/flask-ui/app/routes.py:191-195 | clears the session and redirects to the index |
| FlaskRoutes.SplitCategoryPath | projects/e-commerce/flask-ui/app/routes.py:79-82 | level 3 only with level 2, and no level contains `/` |
| FlaskRoutes.CategoryPathLevels | projects/e-commerce/flask-ui/app/routes.py:79-82 | levels 2 and 3 are present exactly when the path has that many segments, and level 1 is the first segment |
| FlaskRoutes.CategoryPathRoundTrip | projects/e-commerce/flask-ui/app/routes.py:79-82 | a path of at most three segments is its levels joined by `/` |
| FlaskRoutes.JoinedLevelsSplit | projects/e-commerce/flask-ui/app/routes.py:79-82 | joining `/`-free levels and splitting gives them back |
| FlaskRoutes.RewriteRow | projects/e-commerce/flask-ui/app/routes.py:58-60 | fails exactly for a bad image; otherwise only the target key changes, set to the processed URL |
| FlaskRoutes.RewriteAll | projects/e-commerce/flask-ui/app/routes.py:58-92 | fails exactly when some product has a bad image; otherwise one rewritten row per product |
| FlaskRoutes.RewriteAllFirstError | projects/e-commerce/flask-ui/app/routes.py:58-92 | the failure is that of the first bad product |
| FlaskRoutes.RewriteImages | projects/e-commerce/flask-ui/app/routes.py:58-92 | the update loop computes exactly `RewriteAll` |
| FlaskRoutes.RewriteKeepsMatches | projects/e-commerce/flask-ui/app/routes.py:90-92 | rewriting images changes no category column, so every product still matches the same levels |
| FlaskRoutes.Index | projects/e-commerce/flask-ui/app/routes.py:30-39 | renders `index.html` with the tree and no current levels, or a server error exactly when a category column is missing |
| FlaskRoutes.Home | projects/e-commerce/flask-ui/app/routes.py:47-69 | without `user_id` it redirects to the index. Otherwise it renders `home.html` with the recommended products and rewritten images, or a server error exactly when the lookup or the tree fails |
| FlaskRoutes.HomeProductsRows | projects/e-commerce/flask-ui/app/routes.py:52-60 | every home product is a table row with only its `image` changed |
| FlaskRoutes.CategoryView | projects/e-commerce/flask-ui/app/routes.py:72-99 | the session guard, then the filtered products with rewritten images, capped to the first 500, with the path's levels as current levels |
| FlaskRoutes.CategoryProductsMatch | projects/e-commerce/flask-ui/app/routes.py:79-95 | every product on a category page belongs to that category |
| FlaskRoutes.Named | projects/e-commerce/flask-ui/app/routes.py:115-126 | the dict of the four named lists (similar, complementary by users, complementary category, popular for item) exists exactly when every fetch and lookup succeeded, holds each list under its name, and otherwise is the first failure in evaluation order |
| FlaskRoutes.ProductView | projects/e-commerce/flask-ui/app/routes.py:102-134 | guard; a missing `sku` column gives KeyError `'sku'` before the int conversion of the path, and a bad path gives the int error; the `product_viewed` event is posted exactly when the product is found; renders exactly when the event was posted and the recommendations succeed |
| FlaskRoutes.AddToCart | projects/e-commerce/flask-ui/app/routes.py:137-144 | 401 `{"error": "No session"}` and no event without a session; otherwise the `product_added` event and `{"success": true}` |
| FlaskRoutes.Search | projects/e-commerce/flask-ui/app/routes.py:198-222 | always with the `no_cache` headers. Without `user_id` it redirects to the index; an empty or missing `q` redirects home. Otherwise it renders the results (or `[]` with the error text) and never a server error |
| HotelUtils.KickStartOptions | projects/hotel-search/frontend_app/app/utils/utils.py:8-15 | the four kick-start queries, each named, in their fixed order, all distinct |
| HotelUtils.FlattenEntry | projects/hotel-search/frontend_app/app/utils/utils.py:23-27 | an item has keys id, score and the entry's fields; fields override; id and score come from the entry when not overridden; a missing `id` gives KeyError `'id'` |
| HotelUtils.Flattened | projects/hotel-search/frontend_app/app/utils/utils.py:18-30 | one item per entry, in entry order, or the failure of some entry |
| HotelUtils.FlattenResponse | projects/hotel-search/frontend_app/app/utils/utils.py:18-30 | the appending loop computes exactly `Flattened` |
| HotelUtils.FlattenedItems | projects/hotel-search/frontend_app/app/utils/utils.py:23-27 | each item carries the entry's id and score unless the entry's fields override them |
| HotelUtils.Cleaned | projects/hotel-search/frontend_app/app/utils/utils.py:33-45 | keeps exactly the entries with a non-`None` value and a key outside the six removed ones, values unchanged |
| HotelUtils.CleanKnnParams | projects/hotel-search/frontend_app/app/utils/utils.py:33-45 | the comprehension and the popping loop compute exactly `Cleaned`; the input is a value and is not changed |
| HotelUtils.CleanedIdempotent | projects/hotel-search/frontend_app/app/utils/utils.py:33-45 | cleaning a cleaned dict changes nothing |
| HotelUtils.CleanedShrinks | projects/hotel-search/frontend_app/app/utils/utils.py:34-44 | cleaning only removes entries |
| HotelComponents.SuffixKinds | projects/hotel-search/frontend_app/app/frontend/components.py:78-82 | include, include_all and include_any ask for values; exclude rules them out |
| HotelComponents.StyleAll | projects/hotel-search/frontend_app/app/frontend/components.py:78-82 | requested options render blue, excluded ones struck through in red, one per option in order |
| HotelComponents.OptionsAt | projects/hotel-search/frontend_app/app/frontend/components.py:64-76 | an unset parameter gives no options; a non-list `accomodation_types` value becomes a one-element list |
| HotelComponents.FilterLines | projects/hotel-search/frontend_app/app/frontend/components.py:56-91 | the lines come in (line, `"\n"`) pairs, each line starting with `**` |
| HotelComponents.FormatFilters | projects/hotel-search/frontend_app/app/frontend/components.py:43-91 | the column loop computes exactly `FilterText` |
| HotelComponents.ColumnFilters | projects/hotel-search/frontend_app/app/frontend/components.py:63-82 | the suffix loop for one column computes its styled options over the four suffixes in order |
| HotelComponents.StyleOptions | projects/hotel-search/frontend_app/app/frontend/components.py:77-82 | the option loop appends each option's styled form |
| HotelComponents.UnsetColumnAddsNothing | projects/hotel-search/frontend_app/app/frontend/components.py:63-85 | a column with none of its four parameters set adds no line |
| HotelComponents.NoFiltersNoText | projects/hotel-search/frontend_app/app/frontend/components.py:84-91 | with no filter set, the result is `""` |
| HotelComponents.SingleLineText | projects/hotel-search/frontend_app/app/frontend/components.py:43-91 | when only one column has filters set, `format_filters` gives that column's line followed by a blank line |
| HotelComponents.KeepCategorized | projects/hotel-search/frontend_app/app/frontend/components.py:125 | drops `UNCATEGORIZED` and keeps every other option with its count |
| HotelComponents.KeepCategorizedAppend | projects/hotel-search/frontend_app/app/frontend/components.py:125 | the comprehension keeps the row's order: filtering a concatenation is the concatenation of the filtered parts |
| HotelComponents.KeepCategorizedOne | projects/hotel-search/frontend_app/app/frontend/components.py:125 | a single option is kept exactly when it is not `UNCATEGORIZED` |
| HotelComponents.KeepCategorizedAll | projects/hotel-search/frontend_app/app/frontend/components.py:125 | a row without `UNCATEGORIZED` is kept unchanged |
| HotelComponents.ParamOptions | projects/hotel-search/frontend_app/app/frontend/components.py:132-144 | the asked-for values are those of `include_all` and of `include_any`, with `None` counting as none |
| HotelComponents.MarkAll | projects/hotel-search/frontend_app/app/frontend/components.py:146-149 | each option marked blue when asked for and verbatim otherwise, in order |
| HotelComponents.Texts | projects/hotel-search/frontend_app/app/frontend/components.py:156 | `", ".join` accepts exactly lists of strings |
| HotelComponents.AmenityLines | projects/hotel-search/frontend_app/app/frontend/components.py:120-158 | the lines come in (line, `"\n"`) pairs |
| HotelComponents.FormatAmenities | projects/hotel-search/frontend_app/app/frontend/components.py:114-158 | the column loop computes exactly `AmenityText` |
| HotelComponents.AmenityColumn | projects/hotel-search/frontend_app/app/frontend/components.py:121-150 | the option loop for one column computes exactly `ColumnAmenities` |
| HotelComponents.AmenityHighlighting | projects/hotel-search/frontend_app/app/frontend/components.py:125-149 | an option is highlighted exactly when it is among the column's asked-for values; other options appear verbatim |
| HotelComponents.CountryFlag | projects/hotel-search/frontend_app/app/frontend/components.py:3-97 | the flag exactly for a listed country; a list or dict country gives TypeError `unhashable type`; any other gives KeyError with the country's repr |
| Common.QuotedRepr | projects/hotel-search/frontend_app/app/frontend/components.py:97 | the KeyError text of a country holding a single quote, such as `Côte d'Ivoire`, shows it in double quotes |
| Common.PlainRepr | projects/hotel-search/frontend_app/app/frontend/components.py:97 | the KeyError text of a country without a single quote shows it in single quotes |
| HotelComponents.FlagsAreLetterPairs | projects/hotel-search/frontend_app/app/frontend/components.py:3-23 | every flag is a pair of regional indicator letters |
| HotelComponents.HeaderTitle | projects/hotel-search/frontend_app/app/frontend/components.py:94-99 | an unknown country fails with the flag lookup's error; otherwise the title starts with the flag and a space |

## Left out

Data model:
- Floats are modelled as integers. This covers numeric JSON values, Redis scores, and `created_at`.
- The collaborative vector (`get_item2vec`, the `sum == 0` test, `populate_collobarative_by_neighbors`) is an input function, because it is numeric and network-bound. The mutation that procedure makes to the query config is not modelled.
- The mean and L2 normalisation of `get_collaborative_vector` and `get_item_vector` are floating point and not modelled.
- Dict insertion order is not modelled (dicts are maps). This affects `Config.__repr__`, `dict(vocab)` and the order of keys in replies.
- Iterating over a dict is reported as an error by `Common.Iterate`, because where the core iterates it needs lists.
- NaN cells and NaN truthiness are not modelled.
- Python's `1 == True` equality between numbers and booleans is not modelled.

Parsing and messages:
- `int()` of strings with surrounding whitespace or underscores is not modelled.
- Exception texts of `int()`, pandas' "not in index" and the sort TypeError are abbreviated. The KeyError texts and the TypeError and AttributeError texts of metadata cleaning are exact.
- Common.Repr: picks Python's quote for a string (double quotes when it holds a single quote and no double quote) but does not escape backslashes, control characters or a string holding both quote kinds.
- Common.Str: renders a dict as the placeholder `{...}`, because the model's dicts carry no insertion order.
- A non-list `entries` value is treated as an error.

Wrapper service:
- HTTP, FastAPI, logging, the `Lock` and async execution are not modelled. The network is a function from request to outcome.
- Redis is in memory. A failure is one flag for reads and a fault value for writes. Real TTL expiry timing is not modelled.
- `uuid` is a `freshId` parameter and time is a `now` parameter.
- Endpoints left out: `ingest_product`, `data_load`, the item-similarity variants, `nlq2item` and `item_popularity`. They only forward to the vector service.
- Loading configuration and datasets is not modelled. The dataset is a parameter.
- WrapperApp.AppState.TopicRecommendations: writes the shared `user` parameter dict back into the query configuration once, after the loop, instead of mutating it on every pass. Nothing reads it in between, so the resulting state is the same, but the aliasing of `uid_data` and `query_data` is not modelled as such.

Item2vec:
- Events are records with the user, product and time already projected; column names are resolved separately by `ResolveColumns`.
- Users are ordered as strings.
- Item2vec.SequencesSpec: states the time order only; the order of events with equal user and `created_at` is stated separately by `SortEventsStable` and `GroupKeepsTies`, since sorting on two columns is stable in pandas.
- Writing the vocabulary file, gensim training and `load_config`/`load_schemas_from_index` are I/O or foreign code.
- `Path.suffix` follows the Python 3.11 rule.
- `sorted()` on mixed types is modelled as an error.

Shop front end:
- A category level whose distinct values mix booleans and numbers is treated as an error when sorted, although Python would compare them (and `unique` would merge `True` with `1`).
- FlaskUtils.RandomProducts: states size and sub-multiset only; which rows and their order are random.
- The `print` of the caught exception in `fire_event` and `get_recommendations` is console output and not modelled.
- `placeholder_image` (PIL drawing) and `proxy_image` (byte streaming) are not modelled.
- Template rendering is abstracted into the `Context` a view passes to its template.
- `load_products_from_gcs` becomes the table parameter `df`.
- `get_products_by_category` and `generate_session_id` are used by no modelled route. The fresh session id is a parameter.
- The HEAD request of `process_image_url` is the `reachable` predicate, and `url_for` is the `proxy` function.
- FlaskRoutes.RewriteImages: models the in-place update of each product dict on a value copy, so aliasing between the list and other references is not captured.
- The session is passed to views as a snapshot map. Only `start_session` and `reset_session` change the `Session` object.

Hotel-search front end:
- HotelComponents.HeaderTitle: models only the title line of `format_header`. The rating and price lines use float formatting.
- `load_image_urls` reads a file and is not modelled.
