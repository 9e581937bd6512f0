/** The remote index sync: the export is reshaped into content-enriched
    entries, cut into chunks of 50, uploaded as files, indexed in a new vector
    store, and an assistant is bound to that store. The hosted service is an
    oracle: `server` answers each call from the history of calls made so far. */
module VectorStore {
  import opened Twos
  import opened Text

  datatype FormattedPost = FormattedPost(
    text: string,
    id: string,
    kind: string,
    lastModified: int,
    url: string,
    tags: seq<string>)

  datatype FormattedEntry = FormattedEntry(
    title: string,
    id: string,
    lastModified: int,
    posts: seq<FormattedPost>)

  /** `{...entry, content}`. */
  datatype IndexedEntry = IndexedEntry(entry: FormattedEntry, content: string)

  /** `{entries: [...]}`: one uploaded file. */
  datatype Chunk = Chunk(entries: seq<IndexedEntry>)

  /** A call either returns a value or throws an error with a message. */
  datatype Outcome<+T> = Returned(value: T) | Threw(message: string)

  const ChunkSize := 50
  const NoEntriesMessage := "No entries found in Twos data"
  /** The TypeError `data.posts.filter` raises when the export has no posts array. */
  const PostsMissingMessage := "Cannot read properties of undefined (reading 'filter')"

  // ---------------------------------------------------------------------
  // formatDataForVectorStore

  /** `{text, _id, type, lastModified, url: post.url || "", tags: post.tags || []}`. */
  function FormatPost(p: Post): (r: FormattedPost)
    ensures r.text == p.text && r.id == p.id && r.kind == p.kind && r.lastModified == p.lastModified
    ensures r.url == (if p.url.Some? then p.url.value else "")
    ensures r.tags == (if p.tags.Some? then p.tags.value else [])
  {
    FormattedPost(p.text, p.id, p.kind, p.lastModified,
                  match p.url case Some(u) => u case None => "",
                  OrEmpty(p.tags))
  }

  function FormatPosts(posts: seq<Post>): seq<FormattedPost>
  {
    seq(|posts|, i requires 0 <= i < |posts| => FormatPost(posts[i]))
  }

  /** One element of `data.entries.map(...)`: the entry's own posts, formatted. */
  function FormatEntry(e: Entry, posts: seq<Post>): FormattedEntry
  {
    FormattedEntry(e.title, e.id, e.lastModified, FormatPosts(PostsOf(e.id, posts)))
  }

  function FormatEntries(entries: seq<Entry>, posts: seq<Post>): seq<FormattedEntry>
  {
    seq(|entries|, i requires 0 <= i < |entries| => FormatEntry(entries[i], posts))
  }

  /** A formatted entry keeps the entry's fields and carries exactly the
      formatted posts whose `entry_id` is the entry's id. */
  lemma FormatEntryCarriesOwnPosts(e: Entry, posts: seq<Post>)
    ensures var f := FormatEntry(e, posts);
      && f.title == e.title && f.id == e.id && f.lastModified == e.lastModified
      && |f.posts| == |PostsOf(e.id, posts)|
      && forall fp :: fp in f.posts <==> exists p :: p in posts && p.entryId == e.id && fp == FormatPost(p)
  {
    var own := PostsOf(e.id, posts);
    var f := FormatEntry(e, posts);
    forall fp
      ensures fp in f.posts <==> exists p :: p in posts && p.entryId == e.id && fp == FormatPost(p)
    {
      if fp in f.posts {
        var i :| 0 <= i < |f.posts| && f.posts[i] == fp;
        assert own[i] in own;
      }
      if exists p :: p in posts && p.entryId == e.id && fp == FormatPost(p) {
        var p :| p in posts && p.entryId == e.id && fp == FormatPost(p);
        assert p in own;
        var i :| 0 <= i < |own| && own[i] == p;
        assert f.posts[i] == fp;
      }
    }
  }

  /** The posts keep their input order: formatting against `a + b` gives the
      posts found in `a` followed by those found in `b`. */
  lemma FormatEntryKeepsPostOrder(e: Entry, a: seq<Post>, b: seq<Post>)
    ensures FormatEntry(e, a + b).posts == FormatEntry(e, a).posts + FormatEntry(e, b).posts
  {
    PostsOfAppend(e.id, a, b);
    FormatPostsAppend(PostsOf(e.id, a), PostsOf(e.id, b));
  }

  lemma FormatPostsAppend(x: seq<Post>, y: seq<Post>)
    ensures FormatPosts(x + y) == FormatPosts(x) + FormatPosts(y)
  {
    var l, r := FormatPosts(x + y), FormatPosts(x) + FormatPosts(y);
    assert |l| == |r|;
    forall i | 0 <= i < |l|
      ensures l[i] == r[i]
    {
      if i < |x| {
        assert (x + y)[i] == x[i];
      } else {
        assert (x + y)[i] == y[i - |x|];
      }
    }
  }

  /** `${post.text} ${post.tags?.join(' ') || ''}`. */
  function PostLine(p: FormattedPost): string
  {
    p.text + " " + Join(p.tags, " ")
  }

  function PostLines(posts: seq<FormattedPost>): seq<string>
  {
    seq(|posts|, i requires 0 <= i < |posts| => PostLine(posts[i]))
  }

  /** `${entry.title}\n${entry.posts.map(PostLine).join('\n')}`. */
  function Content(e: FormattedEntry): string
  {
    e.title + "\n" + Join(PostLines(e.posts), "\n")
  }

  /** The content of an entry without posts is its title and a newline. */
  lemma ContentWithoutPosts(e: FormattedEntry)
    requires e.posts == []
    ensures Content(e) == e.title + "\n"
  {
  }

  /** The content's lines give back the title and then one line per post, when
      neither the title nor any post line holds a newline. */
  lemma ContentLines(e: FormattedEntry)
    requires '\n' !in e.title
    requires forall p :: p in e.posts ==> '\n' !in PostLine(p)
    ensures Split(Content(e), '\n') == [e.title] + (if e.posts == [] then [""] else PostLines(e.posts))
  {
    var lines := PostLines(e.posts);
    if e.posts == [] {
      assert Content(e) == Join([e.title, ""], "\n");
      SplitJoin([e.title, ""], '\n');
    } else {
      var parts := [e.title] + lines;
      assert parts[1..] == lines;
      assert Content(e) == Join(parts, "\n");
      forall k | 0 <= k < |parts|
        ensures '\n' !in parts[k]
      {
        if k > 0 {
          assert parts[k] == PostLine(e.posts[k - 1]);
          assert e.posts[k - 1] in e.posts;
        }
      }
      SplitJoin(parts, '\n');
    }
  }

  /** `chunk.map(entry => ({...entry, content}))`. */
  function WithContent(entries: seq<FormattedEntry>): seq<IndexedEntry>
  {
    seq(|entries|, i requires 0 <= i < |entries| => IndexedEntry(entries[i], Content(entries[i])))
  }

  function Min(a: int, b: int): int
  {
    if a < b then a else b
  }

  /** The list cut into consecutive batches of `ChunkSize`, the last one shorter. */
  function Batches(items: seq<IndexedEntry>): seq<Chunk>
    decreases |items|
  {
    if items == [] then []
    else if |items| <= ChunkSize then [Chunk(items)]
    else [Chunk(items[..ChunkSize])] + Batches(items[ChunkSize..])
  }

  /** The entries of all chunks, in chunk order. */
  function Flatten(chunks: seq<Chunk>): seq<IndexedEntry>
  {
    if chunks == [] then [] else chunks[0].entries + Flatten(chunks[1..])
  }

  /** `n` entries make `ceil(n / 50)` chunks. */
  lemma {:induction false} BatchesCount(items: seq<IndexedEntry>)
    ensures |Batches(items)| == (|items| + ChunkSize - 1) / ChunkSize
    decreases |items|
  {
    if |items| > ChunkSize {
      BatchesCount(items[ChunkSize..]);
    }
  }

  /** Every chunk but the last holds exactly 50 entries; the last holds 1 to 50. */
  lemma {:induction false} BatchesSizes(items: seq<IndexedEntry>)
    ensures var b := Batches(items);
      && (forall k :: 0 <= k < |b| - 1 ==> |b[k].entries| == ChunkSize)
      && (b != [] ==> 0 < |b[|b| - 1].entries| <= ChunkSize)
    decreases |items|
  {
    if |items| > ChunkSize {
      var rest := items[ChunkSize..];
      BatchesSizes(rest);
      BatchesCount(rest);
      var b := Batches(items);
      assert b[1..] == Batches(rest);
    }
  }

  /** Concatenating the chunks gives back the list, in order. */
  lemma {:induction false} BatchesFlatten(items: seq<IndexedEntry>)
    ensures Flatten(Batches(items)) == items
    decreases |items|
  {
    if |items| > ChunkSize {
      var b := Batches(items);
      assert b[0].entries == items[..ChunkSize];
      assert b[1..] == Batches(items[ChunkSize..]);
      BatchesFlatten(items[ChunkSize..]);
      assert items == items[..ChunkSize] + items[ChunkSize..];
    } else if items != [] {
      assert Flatten(Batches(items)) == items + Flatten([]);
    }
  }

  /** What `formatDataForVectorStore(data)` returns or throws. */
  function Formatted(data: Snapshot): Outcome<seq<Chunk>>
  {
    if data.entries.None? || data.entries.value == [] then Threw(NoEntriesMessage)
    else if data.posts.None? then Threw(PostsMissingMessage)
    else Returned(Batches(WithContent(FormatEntries(data.entries.value, data.posts.value))))
  }

  /** A successful format of `n` entries yields `ceil(n / 50)` chunks, all
      full but the last, whose entries in order are the formatted entries with
      their content, one per input entry and with that entry's id. */
  lemma FormattedChunks(data: Snapshot)
    requires data.entries.Some? && data.entries.value != [] && data.posts.Some?
    ensures Formatted(data).Returned?
    ensures var chunks, entries := Formatted(data).value, data.entries.value;
      && |chunks| == (|entries| + ChunkSize - 1) / ChunkSize
      && (forall k :: 0 <= k < |chunks| - 1 ==> |chunks[k].entries| == ChunkSize)
      && 0 < |chunks[|chunks| - 1].entries| <= ChunkSize
      && |Flatten(chunks)| == |entries|
      && (forall i :: 0 <= i < |entries| ==>
            && Flatten(chunks)[i].entry == FormatEntry(entries[i], data.posts.value)
            && Flatten(chunks)[i].content == Content(Flatten(chunks)[i].entry))
  {
    var items := WithContent(FormatEntries(data.entries.value, data.posts.value));
    BatchesCount(items);
    BatchesSizes(items);
    BatchesFlatten(items);
  }

  /** `formatDataForVectorStore`: the entry/post join, then the loop
      `for (i = 0; i < n; i += 50) chunks.push(...)` over `slice(i, i + 50)`. */
  method FormatDataForVectorStore(data: Snapshot) returns (r: Outcome<seq<Chunk>>)
    ensures r == Formatted(data)
  {
    if data.entries.None? || |data.entries.value| == 0 {
      return Threw(NoEntriesMessage);
    }
    if data.posts.None? {
      return Threw(PostsMissingMessage);
    }
    var formatted := FormatEntries(data.entries.value, data.posts.value);
    ghost var all := WithContent(formatted);
    var n := |formatted|;
    var chunks: seq<Chunk> := [];
    var i := 0;
    while i < n
      invariant 0 <= i
      invariant chunks + Batches(all[Min(i, n)..]) == Batches(all)
      decreases n - i
    {
      var end := Min(i + ChunkSize, n);
      var chunk := formatted[i..end];
      assert WithContent(chunk) == all[i..end];
      var rest := all[i..];
      assert Batches(rest) == [Chunk(all[i..end])] + Batches(all[end..]) by {
        if |rest| <= ChunkSize {
          assert rest == all[i..end];
          assert all[end..] == [];
        } else {
          assert rest[..ChunkSize] == all[i..end];
          assert rest[ChunkSize..] == all[end..];
        }
      }
      chunks := chunks + [Chunk(WithContent(chunk))];
      i := i + ChunkSize;
      assert Min(i, n) == end;
    }
    assert all[Min(i, n)..] == [];
    assert chunks == Batches(all);
    return Returned(chunks);
  }

  // ---------------------------------------------------------------------
  // The hosted service, seen as calls and replies

  /** The calls made on the hosted service. An assistant is created with fixed
      instructions, model and name, which are not modelled. */
  datatype Call =
    | DeleteAssistant(assistantId: string)
    | DeleteVectorStore(storeId: string)
    | UploadFile(fileName: string, chunk: Chunk)
    | NewVectorStore(name: string)
    | NewFileBatch(batchStoreId: string, fileIds: seq<string>)
    | NewAssistant(assistantStoreId: string)
    | NewThread(message: string, threadStoreId: string)

  /** A call resolves with the id of what it made, or rejects. */
  datatype Reply = Ok(id: string) | Err(message: string)

  /** The result of a step of the sync with the calls made so far and the
      `localStorage` and in-memory vector-store id it leaves. */
  datatype Effect = Effect(
    result: Outcome<SyncSummary>,
    calls: seq<Call>,
    storage: map<string, string>,
    storeId: Option<string>)

  datatype SyncSummary = SyncSummary(
    vectorStoreId: string,
    assistantId: string,
    chunksProcessed: nat,
    fileIds: seq<string>)

  const ApiKeyKey := "openaiId"
  const VectorStoreKey := "vectorStoreId"
  const AssistantKey := "assistantId"
  const StoreName := "Twoschat store"
  const ClientMissing := "OpenAI client not initialized"
  const CredentialsRequired := "Twos User ID and Token are required"
  const NoDataMessage := "No data available to sync"
  const NoVectorStoreMessage := "Vector store ID not found. Please sync data first."
  const ThreadUnavailable := "OpenAI client or vector store ID not initialized"
  /** The TypeError `this.openai.files` raises while the client is null. */
  const NoClientFilesMessage := "Cannot read properties of null (reading 'files')"
  const DefaultGreeting := "Hello"

  /** `localStorage.getItem(key)`: null when the key is absent. */
  function Lookup(storage: map<string, string>, key: string): Option<string>
  {
    if key in storage then Some(storage[key]) else None
  }

  /** JavaScript truthiness of a string that may be null. */
  predicate Truthy(s: Option<string>)
  {
    s.Some? && s.value != ""
  }

  /** `twos_data_${index}.json`. */
  function FileName(index: nat): string
  {
    "twos_data_" + NatToString(index) + ".json"
  }

  /** Different chunks are uploaded under different file names. */
  lemma FileNamesDistinct(i: nat, j: nat)
    requires i != j
    ensures FileName(i) != FileName(j)
  {
    if FileName(i) == FileName(j) {
      var a, b := FileName(i), FileName(j);
      assert |NatToString(i)| == |NatToString(j)|;
      assert a[10..|a| - 5] == NatToString(i);
      assert b[10..|b| - 5] == NatToString(j);
      NatToStringInjective(i, j);
    }
  }

  /** The uploads of the first `n` chunks, in order. */
  ghost function Uploads(chunks: seq<Chunk>, n: nat): seq<Call>
    requires n <= |chunks|
  {
    seq(n, i requires 0 <= i < n => UploadFile(FileName(i), chunks[i]))
  }

  /** The delete cleanup attempts for an assistant id and a vector-store id
      stored under `storage`, in that order. */
  ghost function AssistantCleanup(storage: map<string, string>): seq<Call>
  {
    if Truthy(Lookup(storage, AssistantKey)) then [DeleteAssistant(storage[AssistantKey])] else []
  }

  ghost function StoreCleanup(storage: map<string, string>): seq<Call>
  {
    if Truthy(Lookup(storage, VectorStoreKey)) then [DeleteVectorStore(storage[VectorStoreKey])] else []
  }

  ghost function CleanupCalls(storage: map<string, string>): seq<Call>
  {
    AssistantCleanup(storage) + StoreCleanup(storage)
  }

  class VectorStoreService {
    /** Whether `this.openai` holds a client. */
    var hasClient: bool
    /** `this.vectorStoreId`. */
    var vectorStoreId: Option<string>
    /** `localStorage`. */
    var storage: map<string, string>
    /** The `vectorSyncStatus` store. */
    var status: SyncStatus
    /** Every call made on the hosted service, oldest first. */
    var log: seq<Call>
    /** The hosted service's answer to the newest call of a history. */
    const server: seq<Call> -> Reply

    /** With a client, the vector-store id mirrors the stored one. */
    ghost predicate Valid()
      reads this
    {
      if hasClient then vectorStoreId == Lookup(storage, VectorStoreKey) else vectorStoreId == None
    }

    /** The reply to the upload of chunk `i` after the history `before`. */
    ghost function UploadReply(before: seq<Call>, chunks: seq<Chunk>, i: nat): Reply
      requires i < |chunks|
    {
      server(before + Uploads(chunks, i + 1))
    }

    /** Whether a cleanup delete was attempted after `before` and succeeded. */
    ghost predicate Deleted(before: seq<Call>, attempt: seq<Call>)
    {
      attempt != [] && server(before + attempt).Ok?
    }

    /** `localStorage` after `cleanupExistingResources` ran after the history
        `before`: each stored id whose delete succeeded is removed. */
    ghost function CleanedStorage(before: seq<Call>, st: map<string, string>): map<string, string>
    {
      st - (if Deleted(before, AssistantCleanup(st)) then {AssistantKey} else {})
         - (if Deleted(before + AssistantCleanup(st), StoreCleanup(st)) then {VectorStoreKey} else {})
    }

    /** `this.vectorStoreId` after the cleanup: nulled when the store delete succeeded. */
    ghost function CleanedStoreId(before: seq<Call>, st: map<string, string>, id: Option<string>): Option<string>
    {
      if Deleted(before + AssistantCleanup(st), StoreCleanup(st)) then None else id
    }

    /** The first chunk from `i` on whose upload fails, or `|chunks|` if none does. */
    ghost function FailedUploadFrom(before: seq<Call>, chunks: seq<Chunk>, i: nat): (k: nat)
      requires i <= |chunks|
      ensures i <= k <= |chunks|
      ensures k < |chunks| ==> UploadReply(before, chunks, k).Err?
      ensures forall j :: i <= j < k ==> UploadReply(before, chunks, j).Ok?
      decreases |chunks| - i
    {
      if i == |chunks| || UploadReply(before, chunks, i).Err? then i
      else FailedUploadFrom(before, chunks, i + 1)
    }

    ghost function FirstFailedUpload(before: seq<Call>, chunks: seq<Chunk>): nat
    {
      FailedUploadFrom(before, chunks, 0)
    }

    /** The ids the service gave the uploaded files, in chunk order. */
    ghost function FileIds(before: seq<Call>, chunks: seq<Chunk>): seq<string>
      requires forall i :: 0 <= i < |chunks| ==> UploadReply(before, chunks, i).Ok?
    {
      seq(|chunks|, i requires 0 <= i < |chunks| => UploadReply(before, chunks, i).id)
    }

    /** The first failure is the one after a run of successful uploads. */
    lemma FirstFailedUploadIs(before: seq<Call>, chunks: seq<Chunk>, k: nat)
      requires k <= |chunks|
      requires forall j :: 0 <= j < k ==> UploadReply(before, chunks, j).Ok?
      requires k < |chunks| ==> UploadReply(before, chunks, k).Err?
      ensures FirstFailedUpload(before, chunks) == k
    {
    }

    /** What the publish stage of a sync does after the history `before`,
        from storage `st` and in-memory store id `id`: the result, the calls
        made, and the storage and store id it leaves. */
    ghost function Publish(before: seq<Call>, st: map<string, string>, id: Option<string>, chunks: seq<Chunk>): Effect
    {
      var k := FirstFailedUpload(before, chunks);
      if k < |chunks| then
        Effect(Threw(UploadReply(before, chunks, k).message), before + Uploads(chunks, k + 1), st, id)
      else
        var fileIds := FileIds(before, chunks);
        var afterStore := before + Uploads(chunks, |chunks|) + [NewVectorStore(StoreName)];
        match server(afterStore)
        case Err(m) => Effect(Threw(m), afterStore, st, id)
        case Ok(storeId) =>
          var stored := st[VectorStoreKey := storeId];
          var afterBatch := afterStore + [NewFileBatch(storeId, fileIds)];
          match server(afterBatch)
          case Err(m) => Effect(Threw(m), afterBatch, stored, Some(storeId))
          case Ok(_) =>
            if storeId == "" then Effect(Threw(NoVectorStoreMessage), afterBatch, stored, Some(storeId))
            else
              var afterAssistant := afterBatch + [NewAssistant(storeId)];
              match server(afterAssistant)
              case Err(m) => Effect(Threw(m), afterAssistant, stored, Some(storeId))
              case Ok(assistantId) =>
                Effect(Returned(SyncSummary(storeId, assistantId, |chunks|, fileIds)), afterAssistant,
                       stored[AssistantKey := assistantId], Some(storeId))
    }

    /** Publishing succeeds exactly when every upload, the store creation (with
        a non-empty id), the file batch and the assistant creation succeed. */
    lemma PublishSucceedsExactly(before: seq<Call>, st: map<string, string>, id: Option<string>, chunks: seq<Chunk>)
      ensures Publish(before, st, id, chunks).result.Returned? <==>
        && (forall i :: 0 <= i < |chunks| ==> UploadReply(before, chunks, i).Ok?)
        && var afterStore := before + Uploads(chunks, |chunks|) + [NewVectorStore(StoreName)];
           && server(afterStore).Ok?
           && var storeId := server(afterStore).id;
              var afterBatch := afterStore + [NewFileBatch(storeId, FileIds(before, chunks))];
              && storeId != ""
              && server(afterBatch).Ok?
              && server(afterBatch + [NewAssistant(storeId)]).Ok?
    {
      var k := FirstFailedUpload(before, chunks);
      if k < |chunks| {
        assert !UploadReply(before, chunks, k).Ok?;
      }
    }

    /** When the service accepts every call and names what it creates,
        publishing succeeds. */
    lemma PublishAllAccepted(before: seq<Call>, st: map<string, string>, id: Option<string>, chunks: seq<Chunk>)
      requires forall h :: server(h).Ok? && server(h).id != ""
      ensures Publish(before, st, id, chunks).result.Returned?
    {
      PublishSucceedsExactly(before, st, id, chunks);
    }

    /** A successful publish returns the service's own ids: one file id per
        chunk, the new store's id and the new assistant's id; it made exactly
        the uploads and three creation calls, and stored both new ids. */
    lemma PublishReturned(before: seq<Call>, st: map<string, string>, id: Option<string>, chunks: seq<Chunk>)
      requires Publish(before, st, id, chunks).result.Returned?
      ensures var e := Publish(before, st, id, chunks);
        var s, uploads := e.result.value, before + Uploads(chunks, |chunks|);
        && s.chunksProcessed == |chunks| && |s.fileIds| == |chunks|
        && (forall i :: 0 <= i < |chunks| ==> UploadReply(before, chunks, i) == Ok(s.fileIds[i]))
        && server(uploads + [NewVectorStore(StoreName)]) == Ok(s.vectorStoreId)
        && e.calls == uploads + [NewVectorStore(StoreName), NewFileBatch(s.vectorStoreId, s.fileIds),
                                 NewAssistant(s.vectorStoreId)]
        && server(e.calls) == Ok(s.assistantId)
        && e.storeId == Some(s.vectorStoreId)
        && e.storage == st[VectorStoreKey := s.vectorStoreId][AssistantKey := s.assistantId]
    {
      PublishSucceedsExactly(before, st, id, chunks);
    }

    /** A failed publish rethrows the error of its last call, except for the
        empty-store-id guard, which throws after a successful batch; the calls
        made extend the history, and storage only gains the new store's id. */
    lemma PublishRethrows(before: seq<Call>, st: map<string, string>, id: Option<string>, chunks: seq<Chunk>)
      requires Publish(before, st, id, chunks).result.Threw?
      ensures var e := Publish(before, st, id, chunks);
        && |before| < |e.calls| && e.calls[..|before|] == before
        && (server(e.calls) == Err(e.result.message)
            || (e.result.message == NoVectorStoreMessage && server(e.calls).Ok?))
        && ((e.storage == st && e.storeId == id)
            || exists newId :: e.storage == st[VectorStoreKey := newId] && e.storeId == Some(newId))
    {
      var e := Publish(before, st, id, chunks);
      var k := FirstFailedUpload(before, chunks);
      if k < |chunks| {
        assert e.calls == before + Uploads(chunks, k + 1);
      } else {
        var afterStore := before + Uploads(chunks, |chunks|) + [NewVectorStore(StoreName)];
        assert afterStore[..|before|] == before;
        if server(afterStore).Ok? {
          var storeId := server(afterStore).id;
          var afterBatch := afterStore + [NewFileBatch(storeId, FileIds(before, chunks))];
          assert afterBatch[..|before|] == before;
          assert (afterBatch + [NewAssistant(storeId)])[..|before|] == before;
          assert e.storage == st[VectorStoreKey := storeId] && e.storeId == Some(storeId);
        }
      }
    }

    constructor (initialStorage: map<string, string>, service: seq<Call> -> Reply)
      ensures Valid()
      ensures storage == initialStorage && server == service && log == [] && status == Idle
      ensures hasClient == Truthy(Lookup(initialStorage, ApiKeyKey))
      ensures vectorStoreId == if hasClient then Lookup(initialStorage, VectorStoreKey) else None
    {
      hasClient := false;
      vectorStoreId := None;
      storage := initialStorage;
      status := Idle;
      log := [];
      server := service;
      new;
      Initialize();
    }

    /** `initialize`: a stored API key creates the client and loads the stored
        vector-store id. */
    method Initialize()
      requires Valid()
      modifies this`hasClient, this`vectorStoreId
      ensures Valid()
      ensures Truthy(Lookup(storage, ApiKeyKey)) ==>
        hasClient && vectorStoreId == Lookup(storage, VectorStoreKey)
      ensures !Truthy(Lookup(storage, ApiKeyKey)) ==>
        hasClient == old(hasClient) && vectorStoreId == old(vectorStoreId)
    {
      if Truthy(Lookup(storage, ApiKeyKey)) {
        hasClient := true;
        vectorStoreId := Lookup(storage, VectorStoreKey);
      }
    }

    /** One call on the hosted service. */
    method Request(c: Call) returns (reply: Reply)
      modifies this`log
      ensures log == old(log) + [c] && reply == server(log)
    {
      log := log + [c];
      reply := server(log);
    }

    /** `cleanupExistingResources`: delete the stored assistant, then the
        stored vector store; a failed delete is swallowed and leaves its id. */
    method CleanupExistingResources() returns (r: Outcome<()>)
      requires Valid()
      modifies this`log, this`storage, this`vectorStoreId
      ensures Valid()
      ensures !hasClient ==>
        && r == Threw(ClientMissing)
        && log == old(log) && storage == old(storage) && vectorStoreId == old(vectorStoreId)
      ensures hasClient ==>
        && r == Returned(())
        && log == old(log) + CleanupCalls(old(storage))
        && storage == CleanedStorage(old(log), old(storage))
        && vectorStoreId == CleanedStoreId(old(log), old(storage), old(vectorStoreId))
    {
      if !hasClient {
        return Threw(ClientMissing);
      }
      ghost var storage0, log0 := storage, log;
      var assistantId := Lookup(storage, AssistantKey);
      if Truthy(assistantId) {
        var reply := Request(DeleteAssistant(assistantId.value));
        if reply.Ok? {
          storage := storage - {AssistantKey};
        }
      }
      ghost var assistantGone := Deleted(log0, AssistantCleanup(storage0));
      assert storage == storage0 - (if assistantGone then {AssistantKey} else {});
      assert log == log0 + AssistantCleanup(storage0);
      ghost var storage1, log1 := storage, log;
      assert Lookup(storage1, VectorStoreKey) == Lookup(storage0, VectorStoreKey);
      var storeId := Lookup(storage, VectorStoreKey);
      if Truthy(storeId) {
        var reply := Request(DeleteVectorStore(storeId.value));
        if reply.Ok? {
          storage := storage - {VectorStoreKey};
          vectorStoreId := None;
        }
      }
      ghost var storeGone := Deleted(log1, StoreCleanup(storage0));
      assert storage == storage1 - (if storeGone then {VectorStoreKey} else {});
      assert log == log1 + StoreCleanup(storage0);
      return Returned(());
    }

    /** `uploadFiles`: upload the chunks one after the other, collecting the
        file ids; the first failed upload ends the loop and is rethrown. */
    method UploadFiles(chunks: seq<Chunk>) returns (r: Outcome<seq<string>>)
      modifies this`log
      ensures !hasClient && chunks != [] ==> r == Threw(NoClientFilesMessage) && log == old(log)
      ensures hasClient || chunks == [] ==>
        && (r.Returned? <==> forall i :: 0 <= i < |chunks| ==> UploadReply(old(log), chunks, i).Ok?)
        && (r.Returned? ==>
              && |r.value| == |chunks|
              && log == old(log) + Uploads(chunks, |chunks|)
              && forall i :: 0 <= i < |chunks| ==> UploadReply(old(log), chunks, i) == Ok(r.value[i]))
        && (r.Threw? ==>
              exists k :: (0 <= k < |chunks|
                && log == old(log) + Uploads(chunks, k + 1)
                && UploadReply(old(log), chunks, k) == Err(r.message)
                && forall i :: 0 <= i < k ==> UploadReply(old(log), chunks, i).Ok?))
      ensures hasClient || chunks == [] ==>
        var k := FirstFailedUpload(old(log), chunks);
        && (k < |chunks| ==>
              r == Threw(UploadReply(old(log), chunks, k).message) && log == old(log) + Uploads(chunks, k + 1))
        && (k == |chunks| ==>
              r == Returned(FileIds(old(log), chunks)) && log == old(log) + Uploads(chunks, |chunks|))
    {
      var fileIds: seq<string> := [];
      var i := 0;
      while i < |chunks|
        invariant 0 <= i <= |chunks| && |fileIds| == i
        invariant i > 0 ==> hasClient
        invariant log == old(log) + Uploads(chunks, i)
        invariant forall j :: 0 <= j < i ==> UploadReply(old(log), chunks, j) == Ok(fileIds[j])
      {
        if !hasClient {
          return Threw(NoClientFilesMessage);
        }
        assert Uploads(chunks, i) + [UploadFile(FileName(i), chunks[i])] == Uploads(chunks, i + 1);
        var reply := Request(UploadFile(FileName(i), chunks[i]));
        assert log == old(log) + Uploads(chunks, i + 1);
        assert UploadReply(old(log), chunks, i) == reply;
        if reply.Err? {
          assert !UploadReply(old(log), chunks, i).Ok?;
          FirstFailedUploadIs(old(log), chunks, i);
          return Threw(reply.message);
        }
        fileIds := fileIds + [reply.id];
        i := i + 1;
      }
      FirstFailedUploadIs(old(log), chunks, |chunks|);
      assert fileIds == FileIds(old(log), chunks);
      return Returned(fileIds);
    }

    /** `createAssistant`: needs the client and a vector-store id; stores the
        new assistant's id. */
    method CreateAssistant() returns (r: Outcome<string>)
      requires Valid()
      modifies this`log, this`storage
      ensures Valid()
      ensures !hasClient ==> r == Threw(ClientMissing) && log == old(log) && storage == old(storage)
      ensures hasClient && !Truthy(vectorStoreId) ==>
        r == Threw(NoVectorStoreMessage) && log == old(log) && storage == old(storage)
      ensures hasClient && Truthy(vectorStoreId) ==>
        && log == old(log) + [NewAssistant(vectorStoreId.value)]
        && match server(log)
           case Ok(id) => r == Returned(id) && storage == old(storage)[AssistantKey := id]
           case Err(message) => r == Threw(message) && storage == old(storage)
    {
      if !hasClient {
        return Threw(ClientMissing);
      }
      if !Truthy(vectorStoreId) {
        return Threw(NoVectorStoreMessage);
      }
      var reply := Request(NewAssistant(vectorStoreId.value));
      match reply
      case Err(message) =>
        return Threw(message);
      case Ok(id) =>
        storage := storage[AssistantKey := id];
        return Returned(id);
    }

    /** `createThread`: needs the client and a vector-store id; seeds the
        thread with the message, or "Hello" when none is given. */
    method CreateThread(initialMessage: Option<string>) returns (r: Outcome<string>)
      modifies this`log
      ensures !hasClient || !Truthy(vectorStoreId) ==> r == Threw(ThreadUnavailable) && log == old(log)
      ensures hasClient && Truthy(vectorStoreId) ==>
        var message := if Truthy(initialMessage) then initialMessage.value else DefaultGreeting;
        && log == old(log) + [NewThread(message, vectorStoreId.value)]
        && r == (match server(log) case Ok(id) => Returned(id) case Err(m) => Threw(m))
    {
      if !hasClient || !Truthy(vectorStoreId) {
        return Threw(ThreadUnavailable);
      }
      var message := if Truthy(initialMessage) then initialMessage.value else DefaultGreeting;
      var reply := Request(NewThread(message, vectorStoreId.value));
      match reply
      case Err(m) =>
        return Threw(m);
      case Ok(id) =>
        return Returned(id);
    }

    /** The stage of `syncToVectorStore` after formatting: upload the chunks,
        create the vector store and remember its id, add the uploaded files to
        it as one batch, and create the assistant. */
    method PublishChunks(chunks: seq<Chunk>) returns (r: Outcome<SyncSummary>)
      requires Valid() && hasClient
      modifies this`log, this`storage, this`vectorStoreId
      ensures Valid()
      ensures Effect(r, log, storage, vectorStoreId) == Publish(old(log), old(storage), old(vectorStoreId), chunks)
      ensures r.Returned? ==>
        var s, uploads := r.value, old(log) + Uploads(chunks, |chunks|);
        && s.chunksProcessed == |chunks| && |s.fileIds| == |chunks|
        && (forall i :: 0 <= i < |chunks| ==> UploadReply(old(log), chunks, i) == Ok(s.fileIds[i]))
        && server(uploads + [NewVectorStore(StoreName)]) == Ok(s.vectorStoreId)
        && server(uploads + [NewVectorStore(StoreName), NewFileBatch(s.vectorStoreId, s.fileIds)]).Ok?
        && log == uploads + [NewVectorStore(StoreName), NewFileBatch(s.vectorStoreId, s.fileIds),
                             NewAssistant(s.vectorStoreId)]
        && server(log) == Ok(s.assistantId)
        && vectorStoreId == Some(s.vectorStoreId)
        && Lookup(storage, VectorStoreKey) == Some(s.vectorStoreId)
        && Lookup(storage, AssistantKey) == Some(s.assistantId)
    {
      var uploaded := UploadFiles(chunks);
      if uploaded.Threw? {
        return Threw(uploaded.message);
      }
      var fileIds := uploaded.value;
      var store := Request(NewVectorStore(StoreName));
      if store.Err? {
        return Threw(store.message);
      }
      vectorStoreId := Some(store.id);
      storage := storage[VectorStoreKey := store.id];
      var batch := Request(NewFileBatch(store.id, fileIds));
      assert log == old(log) + Uploads(chunks, |chunks|)
                    + [NewVectorStore(StoreName), NewFileBatch(store.id, fileIds)];
      if batch.Err? {
        return Threw(batch.message);
      }
      var assistant := CreateAssistant();
      if assistant.Threw? {
        return Threw(assistant.message);
      }
      return Returned(SyncSummary(store.id, assistant.value, |chunks|, fileIds));
    }

    /** `syncToVectorStore`: check the client and the credentials, then clean
        up, fetch, format and publish; any failure after the checks sets the
        status to error and is rethrown. */
    method SyncToVectorStore(userId: string, token: string, response: FetchResponse)
      returns (r: Outcome<SyncSummary>)
      requires Valid()
      modifies this`log, this`storage, this`vectorStoreId, this`status
      ensures Valid()
      ensures !hasClient || userId == "" || token == "" ==>
        && r == Threw(if !hasClient then ClientMissing else CredentialsRequired)
        && status == old(status) && log == old(log)
        && storage == old(storage) && vectorStoreId == old(vectorStoreId)
      ensures hasClient && userId != "" && token != "" ==>
        && (r.Threw? <==> status == Error)
        && (r.Returned? <==> status == Success)
        && (!response.Received? ==> r == Threw(FetchError(response)))
        && (response.Received? && Formatted(response.snapshot).Threw? ==>
              r == Threw(Formatted(response.snapshot).message))
      ensures hasClient && userId != "" && token != "" ==>
        // the cleanup always runs to its end, whatever its deletes answer
        var cleanedLog := old(log) + CleanupCalls(old(storage));
        var cleaned := CleanedStorage(old(log), old(storage));
        var cleanedId := CleanedStoreId(old(log), old(storage), old(vectorStoreId));
        if !response.Received? || Formatted(response.snapshot).Threw? then
          log == cleanedLog && storage == cleaned && vectorStoreId == cleanedId
        else
          Effect(r, log, storage, vectorStoreId)
            == Publish(cleanedLog, cleaned, cleanedId, Formatted(response.snapshot).value)
      ensures r.Returned? ==>
        && response.Received? && Formatted(response.snapshot).Returned?
        && var chunks, s := Formatted(response.snapshot).value, r.value;
        && s.chunksProcessed == |chunks| && |s.fileIds| == |chunks|
        && (forall i :: 0 <= i < |chunks| ==>
              UploadReply(old(log) + CleanupCalls(old(storage)), chunks, i) == Ok(s.fileIds[i]))
        && server(old(log) + CleanupCalls(old(storage)) + Uploads(chunks, |chunks|)
                  + [NewVectorStore(StoreName)]) == Ok(s.vectorStoreId)
        && server(log) == Ok(s.assistantId)
        && log == old(log) + CleanupCalls(old(storage)) + Uploads(chunks, |chunks|)
                  + [NewVectorStore(StoreName), NewFileBatch(s.vectorStoreId, s.fileIds),
                     NewAssistant(s.vectorStoreId)]
        && vectorStoreId == Some(s.vectorStoreId)
        && Lookup(storage, VectorStoreKey) == Some(s.vectorStoreId)
        && Lookup(storage, AssistantKey) == Some(s.assistantId)
    {
      if !hasClient {
        return Threw(ClientMissing);
      }
      if userId == "" || token == "" {
        return Threw(CredentialsRequired);
      }
      status := Syncing;
      var _ := CleanupExistingResources();
      assert log == old(log) + CleanupCalls(old(storage));
      if !response.Received? {
        status := Error;
        return Threw(FetchError(response));
      }
      var formatted := FormatDataForVectorStore(response.snapshot);
      if formatted.Threw? {
        status := Error;
        return Threw(formatted.message);
      }
      var chunks := formatted.value;
      // The `chunks.length === 0` guard cannot fire: a successful format has an entry.
      FormattedChunks(response.snapshot);
      assert chunks != [];
      var published := PublishChunks(chunks);
      if published.Returned? {
        PublishReturned(old(log) + CleanupCalls(old(storage)), CleanedStorage(old(log), old(storage)),
                        CleanedStoreId(old(log), old(storage), old(vectorStoreId)), chunks);
      }
      if published.Threw? {
        status := Error;
        return Threw(published.message);
      }
      status := Success;
      return published;
    }
  }
}
