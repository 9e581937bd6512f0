# Twos chat: cache store and index sync

This project models the two client-side services of a chat front end for the
Twos notes app:

- **The local cache store (`DatabaseService`).** It holds two object stores, `entries` and `posts`. Both are keyed by `_id`.
  - A sync fetches an export snapshot and replaces both stores in one transaction.
  - The stores are read back as tasks: an entry with its posts. There are three reads: all tasks, a title search, and a lookup by id.
- **The remote index sync (`VectorStoreService`).** It reshapes the export into entries with a `content` string and cuts them into chunks of 50.
  - The chunks are uploaded as files and indexed in a new vector store, and an assistant is created over that store.
  - Before uploading, it deletes the assistant and vector store left by the previous sync. The ids are kept in `localStorage`.

Module layout:

- `Text`: the JavaScript string operations used: ASCII lower-casing, `includes`, `trim`-blankness, `join`/`split` and decimal rendering.
- `KeyOrder`: the Indexed Database API's order on string keys, and the cursor walk that visits a store in ascending key order.
- `Twos`: the records of the export, the three outcomes of the export fetch, the sync status, and the `entry_id` filter.
- `Database`: `DatabaseService` as a class whose fields are the two stores (maps from `_id` to record), the sync status and the last published task list.
- `VectorStore`: the pure formatting and chunking, and `VectorStoreService` as a class.
  - Its fields are `localStorage` (a map), the client flag, the vector-store id, the status and the log of remote calls.
  - The remote service is `server`: it answers each call from the history of calls made so far, so its answers are otherwise unconstrained.

Two behaviours of the source worth knowing:

- **Search over post texts.** The search first keeps the entries whose title matches, so a query that occurs only in a post's text finds nothing (`Database.SearchNeedsTitleMatch`).
- **Snapshot without a posts array.** `formatDataForVectorStore` calls `data.posts.filter` without a default, so a snapshot that has entries but no posts array throws a `TypeError`. The model throws too.

## Model

| member | source | states |
|---|---|---|
| Database.DatabaseService.constructor | src/lib/services/database.js:4-22 | a new service starts with both stores empty, status `idle` and an empty published task list |
| Database.DatabaseService.SyncData | src/lib/services/database.js:82-231 | fetch failure or open failure: status `error`, `{success:false, error}`, stores untouched; no entries: both stores emptied, `{0,0}`, snapshot posts not added, status `success`; duplicate `_id`: transaction rolled back, promise rejects with "Failed to add entry"/"Failed to add post", status left `syncing`; otherwise each store holds exactly the snapshot's records under their `_id`, counts equal the array lengths, status `success`, full listing published |
| Database.Populate | src/lib/services/database.js:157-214 | the `add` loop on a cleared store succeeds exactly when the keys are pairwise distinct, and then the table holds exactly the records, each under its key |
| Database.StoresKeyed | src/lib/services/database.js:122-124 | after a successful fill every record is stored under its own key path value |
| Database.StoresDetermined | src/lib/services/database.js:131-200 | the stores after a successful sync depend only on the snapshot: syncing the same snapshot twice leaves the same stores |
| Database.StoresCount | src/lib/services/database.js:194-198 | with distinct keys the store holds as many records as the snapshot array, so the reported count is the store's size |
| Database.DatabaseService.GetAllTasks | src/lib/services/database.js:293-338 | returns and publishes the entries in ascending key order, each merged with its posts |
| Database.DatabaseService.AllTasksInKeyOrder | src/lib/services/database.js:307-328 | the listing has one task per stored entry, strictly ascending by `_id`, and every stored entry appears in it |
| Database.MergeCarriesOwnPosts | src/lib/services/database.js:325-328 | each task is its entry with exactly the posts whose `entry_id` is the entry's `_id` |
| Database.MergeDropsOrphans | src/lib/services/database.js:325-328 | a post whose `entry_id` matches no entry appears in no task |
| Database.DatabaseService.SearchTasks | src/lib/services/database.js:233-291 | a blank query (only white space) gives exactly the full listing; otherwise the title/post filter over the records in key order; the result is published |
| Database.SearchIsQualifiedMerge | src/lib/services/database.js:269-281 | the search result is, in order, exactly the full-listing tasks whose lower-cased title contains the lower-cased query and that own a post, each with all its posts |
| Database.MatchingPostsOfTitleMatch | src/lib/services/database.js:275-279 | for a title that matches, the per-post filter keeps every post of the entry |
| Database.SearchNeedsTitleMatch | src/lib/services/database.js:269-272 | a query that matches no title yields an empty result, whatever the post texts contain |
| Database.Qualified | src/lib/services/database.js:269-281 | membership: a task is kept exactly when its title matches and it has a post |
| Database.DatabaseService.GetTaskById | src/lib/services/database.js:340-370 | `null` when no entry has the key; otherwise that entry with its posts from the `entry_id` index in key order |
| Database.DatabaseService.TaskForIsListed | src/lib/services/database.js:350-366 | the lookup finds nothing exactly when the key is absent, and otherwise yields the same task as the full listing |
| KeyOrder.CursorWalk | src/lib/services/database.js:251-266 | a `next` cursor collects the records of a store in ascending key order |
| KeyOrder.SortedKeys | src/lib/services/database.js:307-322 | the keys of a store listed strictly ascending, each exactly once |
| KeyOrder.AscendingUnique | src/lib/services/database.js:307-322 | two strictly ascending listings of the same keys are equal, so the cursor order is determined by the keys |
| Twos.PostsOf | src/lib/services/database.js:327 | the filtered posts are exactly the posts with that `entry_id`, no more than the input |
| Twos.PostsOfAppend | src/lib/services/vectorStore.js:97 | the filter keeps the input order: it distributes over concatenation |
| Text.SplitJoin | src/lib/services/vectorStore.js:123-125 | splitting a newline join at newlines gives back the parts when no part holds a newline |
| Text.ParseNatToString | src/lib/services/vectorStore.js:140 | the decimal rendering of an index reads back as that index |
| Text.NatToStringInjective | src/lib/services/vectorStore.js:140 | distinct indices render differently |
| VectorStore.FormatPost | src/lib/services/vectorStore.js:102-109 | a formatted post keeps text, `_id`, type and `lastModified`; `url` defaults to `""` and `tags` to `[]` |
| VectorStore.FormatEntryCarriesOwnPosts | src/lib/services/vectorStore.js:96-110 | a formatted entry keeps `title`, `_id`, `lastModified` and carries exactly the formatted posts whose `entry_id` is its `_id` |
| VectorStore.FormatEntryKeepsPostOrder | src/lib/services/vectorStore.js:97-109 | the posts of a formatted entry are in input order |
| VectorStore.ContentWithoutPosts | src/lib/services/vectorStore.js:123-125 | an entry with no posts gets the content `title + "\n"` |
| VectorStore.ContentLines | src/lib/services/vectorStore.js:123-125 | the content's lines are the title and then one `text + " " + tags` line per post |
| VectorStore.BatchesCount | src/lib/services/vectorStore.js:114-128 | `n` entries give `ceil(n/50)` chunks |
| VectorStore.BatchesSizes | src/lib/services/vectorStore.js:115-118 | every chunk but the last holds 50 entries, the last 1 to 50 |
| VectorStore.BatchesFlatten | src/lib/services/vectorStore.js:117-127 | concatenating the chunks' entries gives back the formatted list in order |
| VectorStore.FormattedChunks | src/lib/services/vectorStore.js:90-132 | a successful format yields `ceil(n/50)` chunks, full but the last, whose entries in order are the input entries formatted with their content |
| VectorStore.FormatDataForVectorStore | src/lib/services/vectorStore.js:90-132 | throws "No entries found in Twos data" for absent or empty entries, a `TypeError` for absent posts, and otherwise the stepped `slice` loop builds exactly the batches of the formatted entries |
| VectorStore.FileNamesDistinct | src/lib/services/vectorStore.js:138-142 | different chunks get different `twos_data_<i>.json` names |
| VectorStore.VectorStoreService.constructor | src/lib/services/vectorStore.js:7-11 | the client exists exactly when a non-empty `openaiId` is stored, and then the vector-store id is the stored one |
| VectorStore.VectorStoreService.Initialize | src/lib/services/vectorStore.js:13-22 | a stored API key creates the client and loads the stored vector-store id; otherwise nothing changes |
| VectorStore.VectorStoreService.CleanupExistingResources | src/lib/services/vectorStore.js:24-62 | throws only without a client; deletes the stored assistant, then the stored vector store; a stored id (and the in-memory vector-store id) is cleared exactly when its delete succeeded |
| VectorStore.VectorStoreService.UploadFiles | src/lib/services/vectorStore.js:134-153 | uploads chunk `i` as `twos_data_<i>.json` in order; succeeds exactly when every upload does, returning one id per chunk in chunk order; the first failure stops the loop after that upload and is rethrown |
| VectorStore.VectorStoreService.PublishChunks | src/lib/services/vectorStore.js:181-217 | its result, calls, storage and store id are exactly those of `Publish` for the replies the service gives; on success the ids returned are the service's replies, the new store id is kept in memory and in storage, and the assistant id is stored |
| VectorStore.VectorStoreService.Publish | src/lib/services/vectorStore.js:181-217 | the publish stage case by reply: a failed upload rethrows with storage and store id unchanged; a failed store creation the same; a failed batch, an empty store id or a failed assistant creation rethrows with the new store id already in memory and in storage; all replies accepted returns the summary |
| VectorStore.VectorStoreService.PublishSucceedsExactly | src/lib/services/vectorStore.js:181-217 | publishing returns exactly when every upload, the store creation with a non-empty id, the batch and the assistant creation succeed |
| VectorStore.VectorStoreService.PublishAllAccepted | src/lib/services/vectorStore.js:181-217 | a service that accepts every call with a non-empty id makes publishing succeed |
| VectorStore.VectorStoreService.PublishReturned | src/lib/services/vectorStore.js:181-217 | on success the file ids, store id and assistant id are the service's replies, the calls are the uploads then the three creations, and both new ids are stored |
| VectorStore.VectorStoreService.PublishRethrows | src/lib/services/vectorStore.js:216-219 | a failure rethrows the error of the last call made (or the empty-store-id error after an accepted batch); storage is unchanged or only gained the new store's id |
| VectorStore.VectorStoreService.FailedUploadFrom | src/lib/services/vectorStore.js:136-150 | the first failing upload from a position on: all uploads before it succeeded |
| VectorStore.VectorStoreService.SyncToVectorStore | src/lib/services/vectorStore.js:155-221 | without a client or with empty credentials throws before touching the status; otherwise the cleanup always runs to its end whatever its deletes answer; a fetch or format error is rethrown with the cleanup's storage and store id left in place; otherwise result, calls, storage and store id are those of `Publish` after the cleanup; status ends `success` exactly when it returns and `error` exactly when it throws; on success the ids are the service's replies and `chunksProcessed == chunks.length` |
| VectorStore.VectorStoreService.CreateAssistant | src/lib/services/vectorStore.js:223-260 | without a client, or without a vector-store id, throws with no remote call; otherwise one create call, and on success the assistant id is stored |
| VectorStore.VectorStoreService.CreateThread | src/lib/services/vectorStore.js:262-287 | throws with no remote call when the client or the vector-store id is missing; the thread is seeded with the message, or "Hello" when it is falsy |

## Left out

- `initDatabase` (src/lib/services/database.js:24-80) deletes and reopens the database on every call. The model keeps the two stores as fields that persist between calls, and reduces opening to "opened" or "failed with a message".
- The `localStorage` setup at src/lib/services/database.js:8-12 is not modelled: the cache store reads nothing from it.
- The HTTP export fetch is an input: a non-OK response, a network failure with its message, or a parsed snapshot. A failure of `response.json()` and a JSON body that is not an object are not modelled.
- The hosted AI service is the oracle `server`. It is not assumed to return fresh ids. The assistant's fixed instructions, model, tools and name are not part of the `NewAssistant` call.
- The file contents (`JSON.stringify(chunk)` in a `File`) are represented by the chunk itself.
- Svelte stores become plain fields: `status` and `published`. `console` logging is left out.
- `toLowerCase` is ASCII-only here. Other letters are left as they are.
- The model compares keys by Unicode code point. The Indexed Database API compares UTF-16 code units, which can order supplementary-plane characters differently.
- Async interleaving is not modelled: each operation runs as one sequential method. In `syncData`, any request error aborts the transaction and rolls it back. The clear requests' own error paths ("Failed to clear entries/posts") are not modelled, since clearing maps cannot fail.
- Credentials are strings here. JavaScript `null`/`undefined` for `userId` or `token` is covered by its falsy case, the empty string.
- VectorStore.VectorStoreService.SyncToVectorStore: the source's `chunks.length === 0` guard cannot fire after a successful format, because a format with entries yields at least one chunk. The model proves this instead of keeping a branch that is never taken.
- JSON `null` and an absent field are both `None`. For `"posts": null` the source's `TypeError` reads "Cannot read properties of null (reading 'filter')", while the model always gives the `undefined` wording.
