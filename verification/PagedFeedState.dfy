/** The feed of `PagedFeed` as an object. */
module PagedFeedState {
  import opened Common
  import P = PagedFeed

  class PagedFeedState {
    var items: seq<P.Item>
    var nextCursor: P.Cursor
    var generation: nat
    var loading: bool
    var keys: set<P.Key>
    var requested: set<(nat, P.Cursor)>
    ghost var unanswered: map<P.RequestId, P.Request>
    ghost var nextId: P.RequestId
    ghost var arrived: seq<P.Item>
    ghost var issued: multiset<P.Cursor>
    ghost var excused: multiset<P.Cursor>

    ghost function View(): P.Feed
      reads this
    {
      P.Feed(items, nextCursor, generation, loading, keys, set p | p in requested :: p.1, unanswered, nextId, arrived, issued, excused)
    }

    /** Only pairs of the present generation are kept. */
    ghost predicate Valid()
      reads this
    {
      P.Inv(View()) && forall p :: p in requested ==> p.0 == generation
    }

    constructor ()
      ensures Valid() && View() == P.EMPTY
    {
      items, nextCursor, generation, loading, keys, requested := [], None, 0, false, {}, {};
      unanswered, nextId, arrived, issued, excused := map[], 0, [], multiset{}, multiset{};
    }

    method Issue(cursor: P.Cursor, replace: bool) returns (r: P.Request)
      modifies this`requested, this`loading, this`unanswered, this`nextId, this`issued
      ensures r == P.Request(generation, cursor, replace) && requested == old(requested) + {(generation, cursor)}
      ensures View() == P.Issued(old(View()), cursor, replace)
    {
      r := P.Request(generation, cursor, replace);
      requested := requested + {(generation, cursor)};
      loading := true;
      unanswered, nextId := unanswered[nextId := r], nextId + 1;
      issued := issued + multiset{cursor};
      assert View().requested == old(View()).requested + {cursor};
    }

    /** A request, unless one is under way or this cursor was asked for already; a replacing one always starts afresh. */
    method Begin(cursor: P.Cursor, replace: bool) returns (r: Option<P.Request>)
      requires Valid()
      modifies this
      ensures Valid() && View() == P.Next(old(View()), P.Begin(cursor, replace))
      ensures r.Some? <==> P.Issues(old(View()), cursor, replace)
      ensures r.Some? ==> r.value == P.Request(generation, cursor, replace)
    {
      P.StepKeepsInv(View(), P.Begin(cursor, replace));
      assert cursor in View().requested <==> (generation, cursor) in requested;
      if loading && !replace {
        return None;
      }
      if replace {
        Clear();
      }
      if (generation, cursor) in requested {
        return None;
      }
      var request := Issue(cursor, replace);
      r := Some(request);
    }

    method Clear()
      modifies this`generation, this`items, this`keys, this`nextCursor, this`requested, this`arrived, this`issued, this`excused
      ensures View() == P.Cleared(old(View())) && requested == {}
    {
      generation := generation + 1;
      items, keys, nextCursor, requested := [], {}, None, {};
      arrived, issued, excused := [], multiset{}, multiset{};
    }

    /** The items of the batch not seen before, appended to the list. */
    method AppendNew(batch: seq<P.Item>) returns (incoming: seq<P.Item>)
      requires keys == P.Keys(items)
      modifies this`items, this`keys
      ensures items == P.AddAll(old(items), batch) && items == old(items) + incoming && keys == P.Keys(items)
    {
      incoming := [];
      var i := 0;
      while i < |batch|
        invariant 0 <= i <= |batch| && items == P.AddAll(old(items), batch[..i])
        invariant items == old(items) + incoming && keys == P.Keys(items)
      {
        assert batch[..i + 1][..i] == batch[..i];
        if batch[i].key !in keys {
          P.KeysOfAppend(items, batch[i]);
          keys := keys + {batch[i].key};
          items := items + [batch[i]];
          incoming := incoming + [batch[i]];
        }
        i := i + 1;
      }
      assert batch[..i] == batch;
    }

    /** Returns what the batch added; nothing for an answer of an earlier generation. */
    method Complete(ghost id: P.RequestId, request: P.Request, batch: seq<P.Item>, next: P.Cursor) returns (incoming: seq<P.Item>)
      requires Valid() && id in unanswered && unanswered[id] == request
      modifies this
      ensures Valid() && View() == P.Next(old(View()), P.Complete(id, batch, next))
      ensures if request.generation == old(generation) then items == old(items) + incoming else incoming == [] && items == old(items)
    {
      P.StepKeepsInv(View(), P.Complete(id, batch, next));
      unanswered := unanswered - {id};
      if request.generation != generation {
        return [];
      }
      incoming := AppendNew(batch);
      nextCursor, loading, arrived := next, false, arrived + batch;
    }

    method Fail(ghost id: P.RequestId, request: P.Request, retryable: bool)
      requires Valid() && id in unanswered && unanswered[id] == request
      modifies this
      ensures Valid() && View() == P.Next(old(View()), P.Fail(id, retryable))
    {
      P.StepKeepsInv(View(), P.Fail(id, retryable));
      ghost var before := View();
      unanswered := unanswered - {id};
      if request.generation != generation {
        return;
      }
      loading := false;
      if retryable {
        requested := requested - {(request.generation, request.cursor)};
        excused := excused + multiset{request.cursor};
        assert View().requested == before.requested - {request.cursor};
      }
    }
  }
}
