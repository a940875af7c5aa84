/**
 * The thread listing (`GET` of the threads route): the caller's threads,
 * most recently updated first, each without its messages.
 */
module ThreadsRoute {
  import opened Wrappers
  import opened JsText
  import opened ThreadModel
  import ChatRoute

  /** A thread as `.select('-messages')` returns it: every stored field but the messages. */
  datatype ThreadSummary = ThreadSummary(id: ObjectId, userId: string, title: string, createdAt: nat, updatedAt: nat)

  datatype ListResponse =
    | Listed(threads: seq<ThreadSummary>)   // 200 [summary, ...]
    | ListFailed(status: nat, error: string)

  const Unauthorized: ListResponse := ListFailed(401, "Unauthorized")
  const FetchFailed: ListResponse := ListFailed(500, "Failed to fetch threads")

  function Summarize(id: ObjectId, t: Thread): ThreadSummary
  {
    ThreadSummary(id, t.userId, t.title, t.createdAt, t.updatedAt)
  }

  /** The ids `find({userId})` matches. */
  ghost function Owned(docs: map<ObjectId, Thread>, userId: string): set<ObjectId>
  {
    set id | id in docs && docs[id].userId == userId
  }

  /** No element comes after one with a smaller key. */
  ghost predicate NewestFirst<T>(key: T -> nat, xs: seq<T>)
  {
    forall i, j :: 0 <= i < j < |xs| ==> key(xs[i]) >= key(xs[j])
  }

  /** Places `x` before the first element whose key is not larger than its own. */
  ghost function InsertNewestFirst<T>(key: T -> nat, x: T, xs: seq<T>): (r: seq<T>)
    ensures |r| == |xs| + 1 && (r[0] == x || (xs != [] && r[0] == xs[0]))
    ensures multiset(r) == multiset(xs) + multiset{x}
  {
    if xs == [] || key(xs[0]) <= key(x) then
      [x] + xs
    else
      assert xs == [xs[0]] + xs[1..];
      [xs[0]] + InsertNewestFirst(key, x, xs[1..])
  }

  /** Insertion keeps a list ordered newest first. */
  lemma {:induction false} InsertKeepsNewestFirst<T>(key: T -> nat, x: T, xs: seq<T>)
    requires NewestFirst(key, xs)
    ensures NewestFirst(key, InsertNewestFirst(key, x, xs))
  {
    if xs != [] && key(xs[0]) > key(x) {
      var rest := InsertNewestFirst(key, x, xs[1..]);
      InsertKeepsNewestFirst(key, x, xs[1..]);
      assert key(rest[0]) <= key(xs[0]);
      var r := [xs[0]] + rest;
      forall i, j | 0 <= i < j < |r|
        ensures key(r[i]) >= key(r[j])
      {
        if i == 0 && j > 1 {
          assert key(rest[0]) >= key(rest[j - 1]);
        }
      }
    }
  }

  /** The elements of `s`, each exactly once, in non-increasing order of their keys. */
  ghost function SortNewestFirst<T>(key: T -> nat, s: set<T>): (r: seq<T>)
    ensures multiset(r) == multiset(s)
    ensures NewestFirst(key, r)
    decreases s
  {
    if s == {} then
      []
    else
      var x :| x in s;
      var rest := SortNewestFirst(key, s - {x});
      assert multiset(s - {x}) + multiset{x} == multiset(s);
      InsertKeepsNewestFirst(key, x, rest);
      InsertNewestFirst(key, x, rest)
  }

  /** When a thread was last updated; the key `sort({updatedAt: -1})` orders by. */
  function UpdatedAt(docs: map<ObjectId, Thread>): ObjectId -> nat
  {
    id => if id in docs then docs[id].updatedAt else 0
  }

  function IdsOf(threads: seq<ThreadSummary>): (ids: seq<ObjectId>)
    ensures |ids| == |threads| && forall k :: 0 <= k < |threads| ==> ids[k] == threads[k].id
  {
    seq(|threads|, k requires 0 <= k < |threads| => threads[k].id)
  }

  /** `.select('-messages')` applied to the stored threads `ids`, in their order. */
  function Summaries(docs: map<ObjectId, Thread>, ids: seq<ObjectId>): (threads: seq<ThreadSummary>)
    requires forall k :: 0 <= k < |ids| ==> ids[k] in docs
    ensures IdsOf(threads) == ids
    ensures forall k :: 0 <= k < |ids| ==> threads[k] == Summarize(ids[k], docs[ids[k]])
  {
    var threads := seq(|ids|, k requires 0 <= k < |ids| => Summarize(ids[k], docs[ids[k]]));
    assert IdsOf(threads) == ids;
    threads
  }

  /** The ids of the caller's threads, each exactly once, most recently updated first. */
  ghost function OwnedNewestFirst(docs: map<ObjectId, Thread>, userId: string): (ids: seq<ObjectId>)
    ensures multiset(ids) == multiset(Owned(docs, userId))
    ensures forall k :: 0 <= k < |ids| ==> ids[k] in docs && docs[ids[k]].userId == userId
    ensures NewestFirst(UpdatedAt(docs), ids)
  {
    var ids := SortNewestFirst(UpdatedAt(docs), Owned(docs, userId));
    assert forall k :: 0 <= k < |ids| ==> ids[k] in multiset(ids);
    ids
  }

  /**
   * The handler: no caller is a 401 without touching the collection; a
   * failing connection or query is a 500; otherwise the caller's threads,
   * each exactly once, newest first, as summaries.
   */
  ghost function ListThreads(docs: map<ObjectId, Thread>, caller: Option<string>, reachable: bool): (r: ListResponse)
    ensures !Truthy(caller) ==> r == Unauthorized
    ensures Truthy(caller) && !reachable ==> r == FetchFailed
    ensures Truthy(caller) && reachable ==> r.Listed?
    ensures r.Listed? ==>
              && (forall k :: 0 <= k < |r.threads| ==>
                    r.threads[k].id in docs && r.threads[k] == Summarize(r.threads[k].id, docs[r.threads[k].id])
                    && r.threads[k].userId == caller.value)
              && (forall i, j :: 0 <= i < j < |r.threads| ==> r.threads[i].updatedAt >= r.threads[j].updatedAt)
              && multiset(IdsOf(r.threads)) == multiset(Owned(docs, caller.value))
  {
    if !Truthy(caller) then
      Unauthorized
    else if !reachable then
      FetchFailed
    else
      var ids := OwnedNewestFirst(docs, caller.value);
      var threads := Summaries(docs, ids);
      assert forall i, j :: 0 <= i < j < |threads| ==> threads[i].updatedAt == UpdatedAt(docs)(ids[i]) >= UpdatedAt(docs)(ids[j]) == threads[j].updatedAt;
      Listed(threads)
  }

  /** Each of the caller's threads is listed exactly once, and no other thread is listed. */
  lemma ListedExactlyOnce(docs: map<ObjectId, Thread>, caller: Option<string>, id: ObjectId)
    requires Truthy(caller)
    ensures var ids := IdsOf(ListThreads(docs, caller, true).threads);
            multiset(ids)[id] == if id in docs && docs[id].userId == caller.value then 1 else 0
  {
    var owned := Owned(docs, caller.value);
    assert id in owned <==> id in docs && docs[id].userId == caller.value;
  }

  /**
   * After a successful send at a time later than every stored update, the
   * thread that was written to heads its owner's listing.
   */
  lemma SentThreadListedFirst(docs: map<ObjectId, Thread>, caller: Option<string>, body: Option<ChatRoute.ChatBody>,
                              env: ChatRoute.Env)
    requires ChatRoute.Handle(docs, caller, body, env).response.Replied?
    requires forall id :: id in docs ==> docs[id].updatedAt < env.now
    ensures var o := ChatRoute.Handle(docs, caller, body, env);
            var listed := ListThreads(o.docs, caller, true).threads;
            |listed| > 0 && listed[0].id == o.response.threadId
  {
    var o := ChatRoute.Handle(docs, caller, body, env);
    var sent := o.response.threadId;
    var listed := ListThreads(o.docs, caller, true).threads;
    ListedExactlyOnce(o.docs, caller, sent);
    var ids := IdsOf(listed);
    assert sent in multiset(ids);
    var k :| 0 <= k < |ids| && ids[k] == sent;
    assert listed[0].updatedAt >= listed[k].updatedAt == env.now;
  }
}
