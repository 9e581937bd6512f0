/** The local cache store: two object stores, `entries` and `posts`, both keyed
    by `_id`, replaced wholesale by each sync, and read back as tasks (an entry
    joined with its posts). */
module Database {
  import opened Twos
  import opened Text
  import opened KeyOrder

  /** `{...entry, posts}`. */
  datatype Task = Task(entry: Entry, posts: seq<Post>)

  /** Opening the database: it either resolves with a handle or rejects with
      the request's error. */
  datatype DbOpen = Opened | OpenFailed(message: string)

  /** What `syncData` settles with: it resolves with `{success: true, count}`
      or `{success: false, error}`, or the promise it returns rejects. */
  datatype SyncResult =
    | Synced(entriesAdded: nat, postsAdded: nat)
    | Failed(error: string)
    | Rejected(reason: string)

  const AddEntryFailed := "Failed to add entry"
  const AddPostFailed := "Failed to add post"

  // ---------------------------------------------------------------------
  // Object stores keyed by a key path

  ghost predicate DistinctKeys<R>(records: seq<R>, key: R -> string)
  {
    forall i, j :: 0 <= i < j < |records| ==> key(records[i]) != key(records[j])
  }

  /** `table` holds exactly `records`, each one under its key. */
  ghost predicate Stores<R>(table: map<string, R>, records: seq<R>, key: R -> string)
  {
    && (forall k :: k in table ==> exists i :: 0 <= i < |records| && key(records[i]) == k)
    && (forall i :: 0 <= i < |records| ==> key(records[i]) in table && table[key(records[i])] == records[i])
  }

  /** Every record is stored under its own key. */
  lemma StoresKeyed<R>(table: map<string, R>, records: seq<R>, key: R -> string)
    requires Stores(table, records, key)
    ensures forall k :: k in table ==> key(table[k]) == k
  {
    forall k | k in table
      ensures key(table[k]) == k
    {
      var i :| 0 <= i < |records| && key(records[i]) == k;
    }
  }

  /** The stored table depends on the records alone, so replacing the contents
      twice with the same snapshot leaves the same tables. */
  lemma StoresDetermined<R>(t1: map<string, R>, t2: map<string, R>, records: seq<R>, key: R -> string)
    requires Stores(t1, records, key) && Stores(t2, records, key)
    ensures t1 == t2
  {
    forall k | k in t1
      ensures k in t2 && t1[k] == t2[k]
    {
      var i :| 0 <= i < |records| && key(records[i]) == k;
    }
    forall k | k in t2
      ensures k in t1
    {
      var i :| 0 <= i < |records| && key(records[i]) == k;
    }
  }

  /** With distinct keys, the table holds one record per input record. */
  lemma {:induction false} StoresCount<R>(table: map<string, R>, records: seq<R>, key: R -> string)
    requires Stores(table, records, key) && DistinctKeys(records, key)
    ensures |table| == |records|
    decreases |records|
  {
    if records == [] {
      assert table == map[];
    } else {
      var n := |records| - 1;
      var last := key(records[n]);
      var front := records[..n];
      var rest := table - {last};
      forall k | k in rest
        ensures exists i :: 0 <= i < |front| && key(front[i]) == k
      {
        var i :| 0 <= i < |records| && key(records[i]) == k;
        assert i != n;
        assert key(front[i]) == k;
      }
      forall i | 0 <= i < |front|
        ensures key(front[i]) in rest && rest[key(front[i])] == front[i]
      {
        assert front[i] == records[i];
      }
      StoresCount(rest, front, key);
      assert |table.Keys - {last}| == |table.Keys| - 1;
    }
  }

  /** The `forEach(record => store.add(record))` loop on a freshly cleared
      store: `add` fails on a key already present, and the first such failure
      ends the operation. */
  method Populate<R>(records: seq<R>, key: R -> string) returns (table: map<string, R>, ok: bool)
    ensures ok <==> DistinctKeys(records, key)
    ensures ok ==> Stores(table, records, key)
  {
    table := map[];
    var i := 0;
    while i < |records|
      invariant 0 <= i <= |records|
      invariant Stores(table, records[..i], key)
      invariant DistinctKeys(records[..i], key)
    {
      var r := records[i];
      if key(r) in table {
        var j :| 0 <= j < i && key(records[..i][j]) == key(r);
        assert key(records[j]) == key(records[i]);
        return table, false;
      }
      assert records[..i + 1] == records[..i] + [r];
      table := table[key(r) := r];
      i := i + 1;
    }
    assert records[..i] == records;
    return table, true;
  }

  // ---------------------------------------------------------------------
  // Reads: pure functions of the records a cursor collected

  /** `entries.map(entry => ({...entry, posts: posts.filter(post => post.entry_id === entry._id)}))`. */
  function Merge(entries: seq<Entry>, posts: seq<Post>): seq<Task>
  {
    seq(|entries|, i requires 0 <= i < |entries| => Task(entries[i], PostsOf(entries[i].id, posts)))
  }

  /** One task per entry, in entry order, each carrying exactly its own posts. */
  lemma MergeCarriesOwnPosts(entries: seq<Entry>, posts: seq<Post>)
    ensures |Merge(entries, posts)| == |entries|
    ensures forall i :: 0 <= i < |entries| ==>
      && Merge(entries, posts)[i].entry == entries[i]
      && (forall p :: p in Merge(entries, posts)[i].posts <==> p in posts && p.entryId == entries[i].id)
  {
  }

  /** A post whose entry is not among `entries` appears in no task. */
  lemma MergeDropsOrphans(entries: seq<Entry>, posts: seq<Post>, orphan: Post)
    requires forall e :: e in entries ==> e.id != orphan.entryId
    ensures forall t :: t in Merge(entries, posts) ==> orphan !in t.posts
  {
  }

  /** `text.toLowerCase().includes(query.toLowerCase())`. */
  predicate Matches(query: string, text: string)
  {
    Contains(Lower(text), Lower(query))
  }

  /** `entries.filter(entry => entry.title ... includes(query ...))`. */
  function TitleMatches(query: string, entries: seq<Entry>): seq<Entry>
  {
    if entries == [] then []
    else (if Matches(query, entries[0].title) then [entries[0]] else []) + TitleMatches(query, entries[1..])
  }

  /** `posts.filter(post => post.entry_id === entry._id && (text matches || title matches))`. */
  function MatchingPosts(query: string, entry: Entry, posts: seq<Post>): seq<Post>
  {
    if posts == [] then []
    else
      var p := posts[0];
      (if p.entryId == entry.id && (Matches(query, p.text) || Matches(query, entry.title)) then [p] else [])
      + MatchingPosts(query, entry, posts[1..])
  }

  /** `.map(entry => ({...entry, posts: MatchingPosts}))`. */
  function AttachMatching(query: string, entries: seq<Entry>, posts: seq<Post>): seq<Task>
  {
    if entries == [] then []
    else [Task(entries[0], MatchingPosts(query, entries[0], posts))] + AttachMatching(query, entries[1..], posts)
  }

  /** `.filter(entry => entry.posts.length > 0)`. */
  function DropEmpty(tasks: seq<Task>): seq<Task>
  {
    if tasks == [] then []
    else (if tasks[0].posts != [] then [tasks[0]] else []) + DropEmpty(tasks[1..])
  }

  /** The result of `searchTasks` for a query that is not blank. */
  function Search(query: string, entries: seq<Entry>, posts: seq<Post>): seq<Task>
  {
    DropEmpty(AttachMatching(query, TitleMatches(query, entries), posts))
  }

  /** The tasks whose title matches and that carry at least one post, in order. */
  function Qualified(query: string, tasks: seq<Task>): (r: seq<Task>)
    ensures forall t :: t in r <==> t in tasks && Matches(query, t.entry.title) && t.posts != []
  {
    if tasks == [] then []
    else
      (if Matches(query, tasks[0].entry.title) && tasks[0].posts != [] then [tasks[0]] else [])
      + Qualified(query, tasks[1..])
  }

  /** For an entry whose title matches, the post test passes on the title
      alone: the entry keeps all of its posts. */
  lemma {:induction false} MatchingPostsOfTitleMatch(query: string, entry: Entry, posts: seq<Post>)
    requires Matches(query, entry.title)
    ensures MatchingPosts(query, entry, posts) == PostsOf(entry.id, posts)
    decreases |posts|
  {
    if posts != [] {
      MatchingPostsOfTitleMatch(query, entry, posts[1..]);
    }
  }

  /** Search keeps, in order, exactly the tasks of the full listing whose title
      matches and that own at least one post, each with all of its posts. */
  lemma {:induction false} SearchIsQualifiedMerge(query: string, entries: seq<Entry>, posts: seq<Post>)
    ensures Search(query, entries, posts) == Qualified(query, Merge(entries, posts))
    decreases |entries|
  {
    if entries != [] {
      var e, rest := entries[0], entries[1..];
      var m := Merge(entries, posts);
      assert m[0] == Task(e, PostsOf(e.id, posts));
      assert m[1..] == Merge(rest, posts);
      SearchIsQualifiedMerge(query, rest, posts);
      var ts := TitleMatches(query, rest);
      if Matches(query, e.title) {
        MatchingPostsOfTitleMatch(query, e, posts);
        assert TitleMatches(query, entries) == [e] + ts;
        var att := AttachMatching(query, [e] + ts, posts);
        assert att[0] == Task(e, PostsOf(e.id, posts));
        assert att[1..] == AttachMatching(query, ts, posts);
      } else {
        assert TitleMatches(query, entries) == ts;
      }
    }
  }

  /** A query that matches no title finds nothing, whatever the post texts say. */
  lemma {:induction false} SearchNeedsTitleMatch(query: string, entries: seq<Entry>, posts: seq<Post>)
    requires forall e :: e in entries ==> !Matches(query, e.title)
    ensures Search(query, entries, posts) == []
    decreases |entries|
  {
    if entries != [] {
      assert entries[0] in entries;
      assert forall e :: e in entries[1..] ==> e in entries;
      assert TitleMatches(query, entries) == TitleMatches(query, entries[1..]);
      SearchNeedsTitleMatch(query, entries[1..], posts);
    }
  }

  // ---------------------------------------------------------------------
  // The service

  class DatabaseService {
    var entries: map<string, Entry>
    var posts: map<string, Post>
    /** The `syncStatus` store. */
    var status: SyncStatus
    /** The last value set on the `tasksStore` store. */
    var published: seq<Task>

    /** Both stores keep each record under its `_id` (their `keyPath`). */
    ghost predicate Valid()
      reads this
    {
      && (forall k :: k in entries ==> entries[k].id == k)
      && (forall k :: k in posts ==> posts[k].id == k)
    }

    constructor ()
      ensures Valid()
      ensures entries == map[] && posts == map[] && status == Idle && published == []
    {
      entries, posts := map[], map[];
      status := Idle;
      published := [];
    }

    /** The entries as a `next` cursor over the entries store yields them. */
    ghost function EntryRecords(): seq<Entry>
      reads this
    {
      InKeyOrder(entries)
    }

    ghost function PostRecords(): seq<Post>
      reads this
    {
      InKeyOrder(posts)
    }

    /** What `getAllTasks` returns in the current state. */
    ghost function AllTasks(): seq<Task>
      reads this
    {
      Merge(EntryRecords(), PostRecords())
    }

    /** What `getTaskById` returns in the current state. */
    ghost function TaskFor(id: string): Option<Task>
      reads this
    {
      if id in entries then Some(Task(entries[id], PostsOf(id, PostRecords()))) else None
    }

    /** The full listing has one task per stored entry, in ascending key order. */
    lemma AllTasksInKeyOrder()
      requires Valid()
      ensures |AllTasks()| == |entries|
      ensures forall i, j :: 0 <= i < j < |AllTasks()| ==> Less(AllTasks()[i].entry.id, AllTasks()[j].entry.id)
      ensures forall i :: 0 <= i < |AllTasks()| ==> AllTasks()[i].entry.id in entries
      ensures forall k :: k in entries ==> exists i :: 0 <= i < |AllTasks()| && AllTasks()[i].entry == entries[k]
    {
      var ks := SortedKeys(entries.Keys);
      var ts := AllTasks();
      EntriesListedByKey();
      forall i, j | 0 <= i < j < |ts|
        ensures Less(ts[i].entry.id, ts[j].entry.id)
      {
        assert ts[i].entry.id == ks[i] && ts[j].entry.id == ks[j];
      }
      forall k | k in entries
        ensures exists i :: 0 <= i < |ts| && ts[i].entry == entries[k]
      {
        assert k in ks;
        var i :| 0 <= i < |ks| && ks[i] == k;
        assert ts[i].entry == entries[k];
      }
    }

    /** The i-th task of the listing is the entry under the i-th smallest key. */
    lemma EntriesListedByKey()
      requires Valid()
      ensures var ks, ts := SortedKeys(entries.Keys), AllTasks();
        && |ts| == |ks|
        && forall i :: 0 <= i < |ts| ==> ks[i] in entries && ts[i].entry == entries[ks[i]] && ts[i].entry.id == ks[i]
    {
      var ks := SortedKeys(entries.Keys);
      var es := EntryRecords();
      assert |es| == |ks|;
      forall i | 0 <= i < |ks|
        ensures ks[i] in entries && es[i] == entries[ks[i]] && es[i].id == ks[i]
      {
        assert ks[i] in ks;
      }
    }

    /** The point lookup agrees with the full listing: it finds nothing exactly
        when no entry has that key, and otherwise the task the listing holds. */
    lemma TaskForIsListed(id: string)
      requires Valid()
      ensures TaskFor(id).None? <==> id !in entries
      ensures id in entries ==> exists i :: 0 <= i < |AllTasks()| && AllTasks()[i] == TaskFor(id).value
      ensures forall i :: 0 <= i < |AllTasks()| ==> TaskFor(AllTasks()[i].entry.id) == Some(AllTasks()[i])
    {
      var ks := SortedKeys(entries.Keys);
      var ts := AllTasks();
      EntriesListedByKey();
      if id in entries {
        assert id in ks;
        var i :| 0 <= i < |ks| && ks[i] == id;
        assert ts[i] == TaskFor(id).value;
      }
    }

    /** `syncData`: fetch the export, then in one read-write transaction clear
        both stores and add every entry and then every post. */
    method SyncData(response: FetchResponse, open: DbOpen) returns (r: SyncResult)
      requires Valid()
      modifies this
      ensures Valid()
      ensures !response.Received? ==>
        && r == Failed(FetchError(response)) && status == Error
        && entries == old(entries) && posts == old(posts) && published == old(published)
      ensures response.Received? && open.OpenFailed? ==>
        && r == Failed(open.message) && status == Error
        && entries == old(entries) && posts == old(posts) && published == old(published)
      ensures response.Received? && open.Opened? ==>
        var es, ps := OrEmpty(response.snapshot.entries), OrEmpty(response.snapshot.posts);
        if es == [] then
          // the posts of the snapshot are not added
          && r == Synced(0, 0) && status == Success
          && entries == map[] && posts == map[] && published == []
        else if !DistinctKeys(es, EntryKey) || !DistinctKeys(ps, PostKey) then
          // the transaction aborts; the rejection bypasses the error handler
          && r == Rejected(if DistinctKeys(es, EntryKey) then AddPostFailed else AddEntryFailed)
          && status == Syncing
          && entries == old(entries) && posts == old(posts) && published == old(published)
        else
          && r == Synced(|es|, |ps|) && status == Success
          && Stores(entries, es, EntryKey) && Stores(posts, ps, PostKey)
          && |entries| == |es| && |posts| == |ps|
          && published == AllTasks()
    {
      status := Syncing;
      if !response.Received? {
        status := Error;
        return Failed(FetchError(response));
      }
      if open.OpenFailed? {
        status := Error;
        return Failed(open.message);
      }
      var snapshot := response.snapshot;
      // the transaction: what it has written is undone if it aborts
      var priorEntries, priorPosts := entries, posts;
      entries := map[];
      posts := map[];
      var es := OrEmpty(snapshot.entries);
      if |es| == 0 {
        var _ := GetAllTasks();
        status := Success;
        return Synced(0, 0);
      }
      var entryTable, entriesOk := Populate(es, EntryKey);
      if !entriesOk {
        entries, posts := priorEntries, priorPosts;
        return Rejected(AddEntryFailed);
      }
      entries := entryTable;
      var ps := OrEmpty(snapshot.posts);
      var postTable, postsOk := Populate(ps, PostKey);
      if !postsOk {
        entries, posts := priorEntries, priorPosts;
        return Rejected(AddPostFailed);
      }
      posts := postTable;
      StoresKeyed(entries, es, EntryKey);
      StoresKeyed(posts, ps, PostKey);
      StoresCount(entries, es, EntryKey);
      StoresCount(posts, ps, PostKey);
      var _ := GetAllTasks();
      status := Success;
      return Synced(|es|, |ps|);
    }

    /** `getAllTasks`: collect both stores with cursors, merge, publish. */
    method GetAllTasks() returns (tasks: seq<Task>)
      modifies this`published
      ensures tasks == AllTasks() && published == tasks
    {
      var es := CursorWalk(entries);
      var ps := CursorWalk(posts);
      tasks := Merge(es, ps);
      published := tasks;
    }

    /** `searchTasks`: a blank query is the full listing; otherwise the
        title filter, the per-post filter and the drop of empty tasks. */
    method SearchTasks(query: string) returns (tasks: seq<Task>)
      modifies this`published
      ensures IsBlank(query) ==> tasks == AllTasks()
      ensures !IsBlank(query) ==> tasks == Search(query, EntryRecords(), PostRecords())
      ensures published == tasks
    {
      if IsBlank(query) {
        tasks := GetAllTasks();
        return;
      }
      var es := CursorWalk(entries);
      var ps := CursorWalk(posts);
      tasks := Search(query, es, ps);
      published := tasks;
    }

    /** `getTaskById`: a point lookup on the entries store, then `getAll(id)` on
        the posts store's `entry_id` index, which yields the posts with that
        `entry_id` in ascending primary-key order. */
    method GetTaskById(id: string) returns (task: Option<Task>)
      ensures task == TaskFor(id)
    {
      if id !in entries {
        return None;
      }
      var ps := CursorWalk(posts);
      return Some(Task(entries[id], PostsOf(id, ps)));
    }
  }
}
