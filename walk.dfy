/**
 * The ancestor walk `fetchParent`: query the indexer for the parent
 * collection; if the answer is missing or has no parent, stop; otherwise
 * append the answer to the accumulator and recurse on its parent.
 *
 * The indexer is a map from lower-cased collection id to its reply; an id
 * absent from the map is a query that returns no collection. The source has
 * no protection against a cycle of parents, so the walk takes a fuel bound
 * and reports running out of it.
 *
 * Evident reading: the recursive call reads `resp.data?.data?.collection`,
 * a path the response never has; the model takes it as the fetched
 * `resp.data?.collection`, both for the parent to recurse on and for the
 * record appended to the accumulator.
 */
module AncestorWalk {
  import opened JsValues
  import opened Entities

  /**
   * A reply of the indexer: the collection record, or a rejected request
   * (a rejected promise or an exception in the `.then`). A response that
   * resolves with an error and no data has no collection, which is the
   * case of an id absent from the map.
   */
  datatype Reply = Found(collection: Record) | Rejected

  type Indexer = map<string, Reply>

  /**
   * How a walk ended: the merge runs (Finished), the request was rejected
   * and the `catch` only logs (Failed), or the fuel bound was reached.
   */
  datatype End = Finished | Failed | OutOfFuel

  /** The accumulated ancestors, the ids queried in order, and how it ended. */
  datatype Walk = Walk(ancestors: seq<Record>, queried: seq<string>, end: End)

  /** `(parent || '').toLowerCase()`. */
  function QueryKey(parent: Option<string>): string
  {
    ToLower(OrEmpty(parent))
  }

  /** The query key is the parent id lower-cased: of the same length, and already in lower case. */
  lemma QueryKeyNormalised(parent: Option<string>)
    ensures |QueryKey(parent)| == |OrEmpty(parent)|
    ensures ToLower(QueryKey(parent)) == QueryKey(parent)
  {
    ToLowerIdempotent(OrEmpty(parent));
  }

  /** The query for `key` returns `rec`. */
  predicate Fetches(index: Indexer, key: string, rec: Record)
  {
    ToLower(key) in index && index[ToLower(key)] == Found(rec)
  }

  /**
   * `fetchParent(parent, acc)`. The accumulator only grows at its end, every
   * record appended has a parent, and each step makes exactly one query:
   * one per appended record, plus the one that ended the walk.
   */
  function WalkFrom(index: Indexer, parent: Option<string>, acc: seq<Record>, fuel: nat): (w: Walk)
    ensures acc <= w.ancestors
    ensures forall k :: |acc| <= k < |w.ancestors| ==> Truthy(w.ancestors[k].parent)
    ensures |w.queried| == |w.ancestors| - |acc| + (if w.end == OutOfFuel then 0 else 1)
    ensures |w.queried| <= fuel
    ensures w.end == OutOfFuel ==> |w.queried| == fuel
    decreases fuel
  {
    if fuel == 0 then Walk(acc, [], OutOfFuel)
    else
      var key := QueryKey(parent);
      if key !in index then Walk(acc, [key], Finished)
      else
        match index[key]
        case Rejected => Walk(acc, [key], Failed)
        case Found(rec) =>
          if !Truthy(rec.parent) then Walk(acc, [key], Finished)
          else
            var rest := WalkFrom(index, rec.parent, acc + [rec], fuel - 1);
            Walk(rest.ancestors, [key] + rest.queried, rest.end)
  }

  /** The walk queries lower-cased ids, so the case of the starting id does not matter. */
  lemma WalkIgnoresCase(index: Indexer, p: string, acc: seq<Record>, fuel: nat)
    ensures WalkFrom(index, Some(p), acc, fuel) == WalkFrom(index, Some(ToLower(p)), acc, fuel)
  {
    ToLowerIdempotent(p);
  }

  /** The id queried after following `recs` from `start`. */
  function NextId(start: string, recs: seq<Record>): string
    requires forall i :: 0 <= i < |recs| ==> recs[i].parent.Some?
  {
    if recs == [] then start else recs[|recs| - 1].parent.value
  }

  /**
   * `recs` is a chain of records with parents reached from `start`: the
   * query for `start` returns recs[0], and the query for the parent of each
   * record returns the next one.
   */
  predicate Linked(index: Indexer, start: string, recs: seq<Record>)
  {
    (forall i :: 0 <= i < |recs| ==> Truthy(recs[i].parent)) &&
    (|recs| > 0 ==> Fetches(index, start, recs[0])) &&
    (forall i :: 0 <= i < |recs| - 1 ==> Fetches(index, recs[i].parent.value, recs[i + 1]))
  }

  /** One step of the walk: a fetched record with a parent is appended and its parent queried next. */
  lemma WalkStep(index: Indexer, start: string, rec: Record, acc: seq<Record>, fuel: nat)
    requires Fetches(index, start, rec) && Truthy(rec.parent) && fuel > 0
    ensures var w := WalkFrom(index, Some(start), acc, fuel);
            var rest := WalkFrom(index, rec.parent, acc + [rec], fuel - 1);
            w.ancestors == rest.ancestors && w.end == rest.end && |w.queried| == 1 + |rest.queried|
  {
  }

  /** A chain stays a chain after its first record, starting from that record's parent. */
  lemma LinkedTail(index: Indexer, start: string, recs: seq<Record>)
    requires Linked(index, start, recs) && recs != []
    ensures Linked(index, recs[0].parent.value, recs[1..])
  {
  }

  /**
   * Following a chain of records with parents appends every one of them,
   * in discovery order, at one query each, and continues from the last
   * record's parent.
   */
  lemma {:induction false} WalkAlong(index: Indexer, start: string, recs: seq<Record>,
                                     acc: seq<Record>, fuel: nat)
    requires Linked(index, start, recs)
    requires fuel >= |recs|
    ensures var w := WalkFrom(index, Some(start), acc, fuel);
            var rest := WalkFrom(index, Some(NextId(start, recs)), acc + recs, fuel - |recs|);
            w.ancestors == rest.ancestors && w.end == rest.end &&
            |w.queried| == |recs| + |rest.queried|
    decreases |recs|
  {
    if recs == [] {
      assert acc + recs == acc;
    } else {
      var rec, tail := recs[0], recs[1..];
      var next := rec.parent.value;
      assert rec.parent == Some(next);
      WalkStep(index, start, rec, acc, fuel);
      LinkedTail(index, start, recs);
      WalkAlong(index, next, tail, acc + [rec], fuel - 1);
      assert acc + [rec] + tail == acc + recs;
      assert fuel - 1 - |tail| == fuel - |recs|;
      assert NextId(next, tail) == NextId(start, recs);
    }
  }

  /**
   * A chain of k records ending in a root (a record without parent): the
   * walk makes k queries, finishes, and appends the k - 1 records that have
   * a parent; the root itself is never appended.
   */
  lemma WalkToRoot(index: Indexer, start: string, recs: seq<Record>, root: Record,
                   acc: seq<Record>, fuel: nat)
    requires Linked(index, start, recs)
    requires Fetches(index, NextId(start, recs), root) && !Truthy(root.parent)
    requires fuel > |recs|
    ensures var w := WalkFrom(index, Some(start), acc, fuel);
            w.end == Finished && w.ancestors == acc + recs && |w.queried| == |recs| + 1
  {
    WalkAlong(index, start, recs, acc, fuel);
  }

  /**
   * A chain whose last parent id is unknown to the indexer: the walk
   * finishes as at a root, with every record of the chain appended.
   */
  lemma WalkToMissing(index: Indexer, start: string, recs: seq<Record>,
                      acc: seq<Record>, fuel: nat)
    requires Linked(index, start, recs)
    requires ToLower(NextId(start, recs)) !in index
    requires fuel > |recs|
    ensures var w := WalkFrom(index, Some(start), acc, fuel);
            w.end == Finished && w.ancestors == acc + recs && |w.queried| == |recs| + 1
  {
    WalkAlong(index, start, recs, acc, fuel);
  }

  /**
   * A rejected request part-way up the chain ends the walk as Failed, with
   * the records discovered before it in the accumulator.
   */
  lemma WalkToRejection(index: Indexer, start: string, recs: seq<Record>,
                        acc: seq<Record>, fuel: nat)
    requires Linked(index, start, recs)
    requires ToLower(NextId(start, recs)) in index && index[ToLower(NextId(start, recs))] == Rejected
    requires fuel > |recs|
    ensures var w := WalkFrom(index, Some(start), acc, fuel);
            w.end == Failed && w.ancestors == acc + recs && |w.queried| == |recs| + 1
  {
    WalkAlong(index, start, recs, acc, fuel);
  }

  /**
   * A collection that names itself as parent sends the walk round forever:
   * whatever the fuel, it never finishes.
   */
  lemma {:induction false} WalkSelfLoop(index: Indexer, p: string, rec: Record,
                                        acc: seq<Record>, fuel: nat)
    requires Fetches(index, p, rec) && rec.parent == Some(p) && p != ""
    ensures WalkFrom(index, Some(p), acc, fuel).end == OutOfFuel
    decreases fuel
  {
    if fuel > 0 {
      WalkSelfLoop(index, p, rec, acc + [rec], fuel - 1);
    }
  }
}
