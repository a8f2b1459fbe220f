/**
 A list loaded page by page: one request at a time, answers of an earlier generation ignored, items kept once.
 */
module PagedFeed {
  import opened Common

  type Key = string
  datatype Item = Item(key: Key, body: int)
  type Cursor = Option<string>

  datatype Request = Request(generation: nat, cursor: Cursor, replace: bool)

  type RequestId = nat

  datatype Feed = Feed(
    items: seq<Item>,
    nextCursor: Cursor,
    generation: nat,
    loading: bool,
    keys: set<Key>,
    requested: set<Cursor>,            // of this generation; older ones are cleared with it
    unanswered: map<RequestId, Request>, // ledger: requests issued and not yet answered
    nextId: RequestId,
    arrived: seq<Item>,                // ledger: everything completed in this generation
    issued: multiset<Cursor>,          // ledger: cursors requested in this generation
    excused: multiset<Cursor>)         // ledger: their retryable failures

  const EMPTY := Feed([], None, 0, false, {}, {}, map[], 0, [], multiset{}, multiset{})

  datatype Step =
    | Begin(cursor: Cursor, replace: bool)
    | Complete(id: RequestId, batch: seq<Item>, next: Cursor)
    | Fail(id: RequestId, retryable: bool)

  predicate Enabled(f: Feed, step: Step) {
    match step
    case Begin(_, _) => true
    case Complete(id, _, _) => id in f.unanswered
    case Fail(id, _) => id in f.unanswered
  }

  function Keys(items: seq<Item>): set<Key> {
    set i | 0 <= i < |items| :: items[i].key
  }

  /** The items with a new key, in order. */
  function Dedup(items: seq<Item>): seq<Item> {
    if items == [] then [] else Add(Dedup(items[..|items| - 1]), items[|items| - 1])
  }

  function Add(kept: seq<Item>, item: Item): seq<Item> {
    if item.key in Keys(kept) then kept else kept + [item]
  }

  function AddAll(kept: seq<Item>, batch: seq<Item>): seq<Item> {
    if batch == [] then kept else Add(AddAll(kept, batch[..|batch| - 1]), batch[|batch| - 1])
  }

  predicate Issues(f: Feed, cursor: Cursor, replace: bool) {
    replace || (!f.loading && cursor !in f.requested)
  }

  function Cleared(f: Feed): Feed {
    f.(generation := f.generation + 1, items := [], keys := {}, nextCursor := None, requested := {},
       arrived := [], issued := multiset{}, excused := multiset{})
  }

  function Issued(f: Feed, cursor: Cursor, replace: bool): Feed {
    f.(requested := f.requested + {cursor}, loading := true, issued := f.issued + multiset{cursor},
       unanswered := f.unanswered[f.nextId := Request(f.generation, cursor, replace)], nextId := f.nextId + 1)
  }

  function Next(f: Feed, step: Step): Feed
    requires Enabled(f, step)
  {
    match step
    case Begin(cursor, replace) =>
      if !Issues(f, cursor, replace) then f
      else Issued(if replace then Cleared(f) else f, cursor, replace)
    case Complete(id, batch, next) =>
      var g := f.(unanswered := f.unanswered - {id});
      if f.unanswered[id].generation != f.generation then g
      else
        var items := AddAll(f.items, batch);
        g.(items := items, keys := Keys(items), nextCursor := next, loading := false, arrived := f.arrived + batch)
    case Fail(id, retryable) =>
      var r := f.unanswered[id];
      var g := f.(unanswered := f.unanswered - {id});
      if r.generation != f.generation then g
      else if retryable then
        g.(loading := false, requested := f.requested - {r.cursor}, excused := f.excused + multiset{r.cursor})
      else g.(loading := false)
  }

  predicate IsRun(f: Feed, steps: seq<Step>)
    decreases |steps|
  {
    steps == [] || (Enabled(f, steps[0]) && IsRun(Next(f, steps[0]), steps[1..]))
  }

  function After(f: Feed, steps: seq<Step>): Feed
    requires IsRun(f, steps)
    decreases |steps|
  {
    if steps == [] then f else After(Next(f, steps[0]), steps[1..])
  }

  // ---------------------------------------------------------------- deduplication

  lemma KeysOfAppend(items: seq<Item>, item: Item)
    ensures Keys(items + [item]) == Keys(items) + {item.key}
  {
    var all := items + [item];
    forall k | k in Keys(items) + {item.key}
      ensures k in Keys(all)
    {
      if k == item.key {
        assert all[|items|].key == k;
      } else {
        var i :| 0 <= i < |items| && items[i].key == k;
        assert all[i].key == k;
      }
    }
  }

  predicate DistinctKeys(items: seq<Item>) {
    forall i, j :: 0 <= i < j < |items| ==> items[i].key != items[j].key
  }

  /** Feeding batch after batch is the same as deduplicating everything at once. */
  lemma {:induction false} DedupIsIncremental(before: seq<Item>, batch: seq<Item>)
    ensures Dedup(before + batch) == AddAll(Dedup(before), batch)
  {
    if batch == [] {
      assert before + batch == before;
    } else {
      var all := before + batch;
      DedupIsIncremental(before, batch[..|batch| - 1]);
      assert all[..|all| - 1] == before + batch[..|batch| - 1] && all[|all| - 1] == batch[|batch| - 1];
    }
  }

  lemma DistinctAppend(kept: seq<Item>, item: Item)
    requires DistinctKeys(kept)
    ensures DistinctKeys(Add(kept, item))
  {
  }

  predicate IsFirst(items: seq<Item>, i: nat)
    requires i < |items|
  {
    items[i].key !in Keys(items[..i])
  }

  /** Every key is kept, and once. */
  lemma {:induction false} DedupKeepsKeys(items: seq<Item>)
    ensures Keys(Dedup(items)) == Keys(items) && DistinctKeys(Dedup(items))
  {
    if items != [] {
      var n := |items| - 1;
      var front := items[..n];
      DedupKeepsKeys(front);
      assert items == front + [items[n]];
      KeysOfAppend(front, items[n]);
      KeysOfAppend(Dedup(front), items[n]);
      DistinctAppend(Dedup(front), items[n]);
    }
  }

  /** The item that brought a key first is the one kept. */
  lemma {:induction false} FirstIsKept(items: seq<Item>, i: nat)
    requires i < |items| && IsFirst(items, i)
    ensures items[i] in Dedup(items)
  {
    var n := |items| - 1;
    var front := items[..n];
    if i < n {
      assert items[..i] == front[..i];
      FirstIsKept(front, i);
    } else {
      DedupKeepsKeys(front);
    }
  }

  /** Nothing is kept but first occurrences. */
  lemma {:induction false} KeptIsFirst(items: seq<Item>, x: Item) returns (i: nat)
    requires x in Dedup(items)
    ensures i < |items| && items[i] == x && IsFirst(items, i)
  {
    var n := |items| - 1;
    var front := items[..n];
    if x in Dedup(front) {
      i := KeptIsFirst(front, x);
      assert items[..i] == front[..i];
    } else {
      DedupKeepsKeys(front);
      i := n;
    }
  }

  // ---------------------------------------------------------------- invariant

  predicate IsCurrent(f: Feed, id: RequestId) {
    id in f.unanswered && f.unanswered[id].generation == f.generation
  }

  ghost predicate Inv(f: Feed) {
    && (forall id :: id in f.unanswered ==> id < f.nextId && f.unanswered[id].generation <= f.generation)
    && (f.loading <==> exists id :: IsCurrent(f, id))
    && (forall i, j :: IsCurrent(f, i) && IsCurrent(f, j) ==> i == j)
    && (forall id :: IsCurrent(f, id) ==> f.unanswered[id].cursor in f.requested)
    && f.items == Dedup(f.arrived) && f.keys == Keys(f.items)
    && (forall c :: f.issued[c] == f.excused[c] + if c in f.requested then 1 else 0)
  }

  lemma BeginKeepsInv(f: Feed, cursor: Cursor, replace: bool)
    requires Inv(f)
    ensures Inv(Next(f, Begin(cursor, replace)))
  {
    if Issues(f, cursor, replace) {
      var g := if replace then Cleared(f) else f;
      var r := Next(f, Begin(cursor, replace));
      assert IsCurrent(r, f.nextId);
      assert forall id :: IsCurrent(r, id) && id != f.nextId ==> IsCurrent(g, id);
      assert !replace ==> forall id :: !IsCurrent(f, id);
    }
  }

  lemma AnswerLeavesTheRest(f: Feed, id: RequestId, r: Feed)
    requires Inv(f) && id in f.unanswered
    requires r.unanswered == f.unanswered - {id} && r.generation == f.generation && r.loading == (f.loading && !IsCurrent(f, id))
    ensures r.loading <==> exists i :: IsCurrent(r, i)
    ensures forall i :: IsCurrent(r, i) <==> IsCurrent(f, i) && i != id
  {
    assert forall i :: IsCurrent(r, i) <==> IsCurrent(f, i) && i != id;
    if r.loading {
      var i :| IsCurrent(f, i);
      assert IsCurrent(r, i);
    }
  }

  lemma CompleteKeepsInv(f: Feed, id: RequestId, batch: seq<Item>, next: Cursor)
    requires Inv(f) && id in f.unanswered
    ensures Inv(Next(f, Complete(id, batch, next)))
  {
    var r := Next(f, Complete(id, batch, next));
    AnswerLeavesTheRest(f, id, r);
    DedupIsIncremental(f.arrived, batch);
  }

  lemma FailKeepsInv(f: Feed, id: RequestId, retryable: bool)
    requires Inv(f) && id in f.unanswered
    ensures Inv(Next(f, Fail(id, retryable)))
  {
    AnswerLeavesTheRest(f, id, Next(f, Fail(id, retryable)));
  }

  lemma StepKeepsInv(f: Feed, step: Step)
    requires Inv(f) && Enabled(f, step)
    ensures Inv(Next(f, step))
  {
    match step
    case Begin(cursor, replace) => BeginKeepsInv(f, cursor, replace);
    case Complete(id, batch, next) => CompleteKeepsInv(f, id, batch, next);
    case Fail(id, retryable) => FailKeepsInv(f, id, retryable);
  }

  lemma {:induction false} RunKeepsInv(f: Feed, steps: seq<Step>)
    requires Inv(f) && IsRun(f, steps)
    ensures Inv(After(f, steps))
    decreases |steps|
  {
    if steps != [] {
      StepKeepsInv(f, steps[0]);
      RunKeepsInv(Next(f, steps[0]), steps[1..]);
    }
  }

  // ---------------------------------------------------------------- theorems

  ghost predicate Reachable(f: Feed) {
    exists steps: seq<Step> :: IsRun(EMPTY, steps) && After(EMPTY, steps) == f
  }

  lemma ReachableInv(f: Feed)
    requires Reachable(f)
    ensures Inv(f)
  {
    var steps: seq<Step> :| IsRun(EMPTY, steps) && After(EMPTY, steps) == f;
    RunKeepsInv(EMPTY, steps);
  }

  /** The feed is loading exactly when one request of its generation is unanswered, and there is never a second one. */
  lemma LoadingMeansOneRequest(f: Feed)
    requires Reachable(f)
    ensures f.loading <==> exists id :: IsCurrent(f, id)
    ensures forall i, j :: IsCurrent(f, i) && IsCurrent(f, j) ==> i == j
  {
    ReachableInv(f);
  }

  /** The list is what the completed batches of this generation bring, each key once, the first one kept. */
  lemma ItemsAreTheFirstOccurrences(f: Feed)
    requires Reachable(f)
    ensures f.items == Dedup(f.arrived) && f.keys == Keys(f.arrived) && DistinctKeys(f.items)
    ensures forall i: nat :: i < |f.arrived| && IsFirst(f.arrived, i) ==> f.arrived[i] in f.items
    ensures forall x :: x in f.items ==> exists i: nat :: i < |f.arrived| && f.arrived[i] == x && IsFirst(f.arrived, i)
  {
    ReachableInv(f);
    DedupKeepsKeys(f.arrived);
    forall i: nat | i < |f.arrived| && IsFirst(f.arrived, i)
      ensures f.arrived[i] in f.items
    {
      FirstIsKept(f.arrived, i);
    }
    forall x | x in f.items
      ensures exists i: nat :: i < |f.arrived| && f.arrived[i] == x && IsFirst(f.arrived, i)
    {
      var i := KeptIsFirst(f.arrived, x);
    }
  }

  /** A cursor is asked for at most once more than it has failed in a way that may be retried. */
  lemma ReissuedOnlyAfterRetryableFailure(f: Feed, cursor: Cursor)
    requires Reachable(f)
    ensures f.issued[cursor] <= f.excused[cursor] + 1
    ensures cursor in f.requested <==> f.issued[cursor] == f.excused[cursor] + 1
  {
    ReachableInv(f);
  }

  /** An answer of an earlier generation changes nothing that is shown, asked for or expected. */
  lemma StaleAnswersChangeNothing(f: Feed, id: RequestId, batch: seq<Item>, next: Cursor, retryable: bool)
    requires Reachable(f) && id in f.unanswered && !IsCurrent(f, id)
    ensures Next(f, Complete(id, batch, next)) == f.(unanswered := f.unanswered - {id})
    ensures Next(f, Fail(id, retryable)) == f.(unanswered := f.unanswered - {id})
    ensures f.unanswered[id].generation < f.generation
  {
    ReachableInv(f);
  }

  // ---------------------------------------------------------------- what each call brings about

  lemma {:induction false} AddAllExtends(kept: seq<Item>, batch: seq<Item>)
    ensures kept <= AddAll(kept, batch)
    ensures forall i :: 0 <= i < |batch| ==> batch[i].key in Keys(AddAll(kept, batch))
  {
    if batch != [] {
      var n := |batch| - 1;
      var front := AddAll(kept, batch[..n]);
      AddAllExtends(kept, batch[..n]);
      KeysOfAppend(front, batch[n]);
      forall i | 0 <= i < n
        ensures batch[i].key in Keys(Add(front, batch[n]))
      {
        assert batch[..n][i] == batch[i];
      }
    }
  }

  /**
   A page of the present generation is shown below what was there, with every key it brings; the feed goes on from
   its cursor, and may do so at once unless that was asked for before.
   */
  lemma PageIsShown(f: Feed, id: RequestId, batch: seq<Item>, next: Cursor)
    requires Reachable(f) && IsCurrent(f, id)
    ensures var r := Next(f, Complete(id, batch, next));
            && f.items <= r.items && r.nextCursor == next && !r.loading && r.generation == f.generation
            && (forall i :: 0 <= i < |batch| ==> batch[i].key in r.keys)
            && (Issues(r, next, false) <==> next !in f.requested)
  {
    AddAllExtends(f.items, batch);
  }

  /** A replacing request empties the list, asks for its cursor alone, and makes every earlier answer stale. */
  lemma ReplacementStartsAfresh(f: Feed, cursor: Cursor)
    requires Reachable(f)
    ensures var r := Next(f, Begin(cursor, true));
            && r.items == [] && r.keys == {} && r.nextCursor == None && r.generation == f.generation + 1
            && r.loading && r.requested == {cursor}
            && (forall id :: IsCurrent(r, id) <==> id == f.nextId) && r.unanswered[f.nextId] == Request(r.generation, cursor, true)
  {
    ReachableInv(f);
  }

  /** A further request keeps what is shown. */
  lemma RequestKeepsTheList(f: Feed, cursor: Cursor)
    requires Reachable(f) && !f.loading && cursor !in f.requested
    ensures var r := Next(f, Begin(cursor, false));
            && r.items == f.items && r.keys == f.keys && r.nextCursor == f.nextCursor && r.generation == f.generation
            && r.loading && IsCurrent(r, f.nextId) && r.unanswered[f.nextId] == Request(f.generation, cursor, false)
            && !Issues(r, cursor, false)
  {
    ReachableInv(f);
  }

  /** After a failure nothing is loading; the same cursor can be asked for again exactly if the failure allows it. */
  lemma FailedPageCanBeRetried(f: Feed, id: RequestId, retryable: bool)
    requires Reachable(f) && IsCurrent(f, id)
    ensures var r := Next(f, Fail(id, retryable));
            && !r.loading && r.items == f.items && r.keys == f.keys && r.nextCursor == f.nextCursor
            && (Issues(r, f.unanswered[id].cursor, false) <==> retryable)
            && forall c :: c != f.unanswered[id].cursor ==> (Issues(r, c, false) <==> c !in f.requested)
  {
    ReachableInv(f);
  }
}
