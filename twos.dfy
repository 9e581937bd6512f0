/** The records of the remote notes service that both services consume: an
    export snapshot of entries (lists) and posts (list items), and the answer
    of the export endpoint, which is not modelled beyond its three outcomes. */
module Twos {

  datatype Option<+T> = None | Some(value: T)

  datatype Entry = Entry(id: string, title: string, lastModified: int)

  /** A post; `url` and `tags` may be absent from the export. */
  datatype Post = Post(
    id: string,
    entryId: string,
    text: string,
    kind: string,
    lastModified: int,
    url: Option<string>,
    tags: Option<seq<string>>)

  /** The JSON body of the export: either array may be absent. */
  datatype Snapshot = Snapshot(entries: Option<seq<Entry>>, posts: Option<seq<Post>>)

  /** What `fetch` to the export endpoint gives back: a response whose `ok`
      is false, a rejected promise (network failure) with its message, or a
      JSON body. */
  datatype FetchResponse =
    | NotOk(httpStatus: int)
    | NetworkError(message: string)
    | Received(snapshot: Snapshot)

  /** The observable sync status cell. */
  datatype SyncStatus = Idle | Syncing | Success | Error

  const FetchFailedMessage := "Failed to fetch data from Twos"

  /** The message of the error a failed fetch raises. */
  function FetchError(response: FetchResponse): string
    requires !response.Received?
  {
    match response
    case NotOk(_) => FetchFailedMessage
    case NetworkError(message) => message
  }

  /** `array || []`. */
  function OrEmpty<T>(a: Option<seq<T>>): seq<T>
  {
    match a
    case None => []
    case Some(s) => s
  }

  function EntryKey(e: Entry): string { e.id }

  function PostKey(p: Post): string { p.id }

  /** `posts.filter(post => post.entry_id === id)`. */
  function PostsOf(id: string, posts: seq<Post>): (r: seq<Post>)
    ensures forall p :: p in r <==> p in posts && p.entryId == id
    ensures |r| <= |posts|
  {
    if posts == [] then []
    else (if posts[0].entryId == id then [posts[0]] else []) + PostsOf(id, posts[1..])
  }

  /** Filtering keeps the input order: it distributes over concatenation. */
  lemma {:induction false} PostsOfAppend(id: string, a: seq<Post>, b: seq<Post>)
    ensures PostsOf(id, a + b) == PostsOf(id, a) + PostsOf(id, b)
    decreases |a|
  {
    if a == [] {
      assert a + b == b;
    } else {
      assert (a + b)[0] == a[0] && (a + b)[1..] == a[1..] + b;
      PostsOfAppend(id, a[1..], b);
    }
  }
}
