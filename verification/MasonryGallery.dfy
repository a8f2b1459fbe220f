/**
 The gallery widget: columns that end in chains of nested tail hosts.

 A new batch must not touch a mounted column.  It fills the empty host at the end of a chain with the
 new cards and a new empty host.  The methods keep one fact: reading a column top to bottom, through
 all its nested hosts, gives what laying out the whole item list from scratch would give.
 */
module MasonryGallery {
  import opened Masonry

  /** A container: empty, or holding cards followed by the next container. */
  class Host {
    var cards: seq<Item>
    var next: Host?

    constructor ()
      ensures cards == [] && next == null
    {
      cards, next := [], null;
    }
  }

  /** The containers of one column, outermost first. */
  type Chain = seq<Host>

  /** Each host nests the next one and the last one is empty. */
  ghost predicate ChainOk(chain: Chain)
    reads chain
  {
    && |chain| > 0
    && (forall i, j :: 0 <= i < j < |chain| ==> chain[i] != chain[j])
    && (forall i :: 0 <= i < |chain| - 1 ==> chain[i].next == chain[i + 1])
    && chain[|chain| - 1].next == null && chain[|chain| - 1].cards == []
  }

  /** The cards of a chain, top to bottom. */
  ghost function Cards(chain: Chain): seq<Item>
    reads chain
  {
    if chain == [] then [] else Cards(chain[..|chain| - 1]) + chain[|chain| - 1].cards
  }

  /** A column as it is shown: its own cards, then those of all its nested hosts. */
  ghost function Flat(cards: seq<Item>, chain: Chain): seq<Item>
    reads chain
  {
    cards + Cards(chain)
  }

  /** No host belongs to two columns. */
  ghost predicate Apart(chains: seq<Chain>) {
    forall c, d, h :: 0 <= c < d < |chains| && h in chains[c] ==> h !in chains[d]
  }

  lemma OthersLackHost(chains: seq<Chain>, c: nat, h: Host)
    requires Apart(chains) && c < |chains| && h in chains[c]
    ensures forall d :: 0 <= d < |chains| && d != c ==> h !in chains[d]
  {
  }

  /** A new host at the end of one chain keeps the chains apart. */
  lemma ApartWithNewHost(chains: seq<Chain>, c: nat, h: Host)
    requires Apart(chains) && c < |chains| && forall d :: 0 <= d < |chains| ==> h !in chains[d]
    ensures Apart(chains[c := chains[c] + [h]])
  {
    var r := chains[c := chains[c] + [h]];
    forall d, e, x | 0 <= d < e < |r| && x in r[d]
      ensures x !in r[e]
    {
      assert x != h ==> x in chains[d] && x !in chains[e];
    }
  }

  /** A chain that ends in the given tail host. */
  ghost predicate EndsIn(chain: Chain, tail: Host)
    reads chain
  {
    ChainOk(chain) && chain[|chain| - 1] == tail
  }

  /** Fills the empty host at the end of a chain and returns the new empty one. */
  method FillTail(tail: Host, ghost chain: Chain, cards: seq<Item>) returns (nextTail: Host)
    requires EndsIn(chain, tail)
    modifies tail
    ensures fresh(nextTail)
    ensures EndsIn(chain + [nextTail], nextTail)
    ensures Cards(chain + [nextTail]) == old(Cards(chain)) + cards
  {
    nextTail := new Host();
    tail.cards := cards;
    tail.next := nextTail;
    ghost var longer, front := chain + [nextTail], chain[..|chain| - 1];
    assert tail !in front && Cards(front) == old(Cards(front));
    assert longer[..|longer| - 1] == chain;
    assert Cards(chain) == Cards(front) + cards;
    assert old(Cards(chain)) == old(Cards(front)) + [];
  }

  /** One chain for every host. */
  ghost function Singles(hosts: seq<Host>): (chains: seq<Chain>)
    ensures |chains| == |hosts|
    ensures forall c :: 0 <= c < |hosts| ==> chains[c] == [hosts[c]]
  {
    seq(|hosts|, c requires 0 <= c < |hosts| => [hosts[c]])
  }

  lemma SinglesAreApart(hosts: seq<Host>)
    requires forall i, j :: 0 <= i < j < |hosts| ==> hosts[i] != hosts[j]
    ensures Apart(Singles(hosts))
  {
  }

  /** One new empty host per column. */
  method NewHosts(m: nat) returns (hosts: seq<Host>)
    ensures |hosts| == m
    ensures forall h :: h in hosts ==> fresh(h)
    ensures forall c :: 0 <= c < m ==> EndsIn([hosts[c]], hosts[c]) && Cards([hosts[c]]) == []
    ensures forall i, j :: 0 <= i < j < m ==> hosts[i] != hosts[j]
  {
    hosts := [];
    while |hosts| < m
      invariant |hosts| <= m
      invariant forall h :: h in hosts ==> fresh(h) && h.cards == [] && h.next == null
      invariant forall i, j :: 0 <= i < j < |hosts| ==> hosts[i] != hosts[j]
    {
      var h := new Host();
      hosts := hosts + [h];
    }
    forall c | 0 <= c < m
      ensures EndsIn([hosts[c]], hosts[c]) && Cards([hosts[c]]) == []
    {
      assert [hosts[c]][..0] == [];
    }
  }

  class MasonryGallery {
    var columnCount: nat
    const spacing: real
    var items: seq<Item>
    var columnHeights: seq<real>
    var columns: seq<seq<Item>>    // the cards of the outer columns themselves
    var tailHosts: seq<Host>
    ghost var chains: seq<Chain>   // the chain of every column, ending in its tail host
    ghost var hosts: set<Host>     // all hosts of all chains

    /** The widget tree is well formed. */
    ghost predicate Linked()
      reads this, hosts
    {
      && columnCount > 0 && spacing >= 0.0
      && |columnHeights| == |columns| == |tailHosts| == |chains| == columnCount
      && (forall c, h :: 0 <= c < columnCount && h in chains[c] ==> h in hosts)
      && Apart(chains)
      && (forall c :: 0 <= c < columnCount ==> EndsIn(chains[c], tailHosts[c]))
    }

    /** The tree shows the layout of the whole item list. */
    ghost predicate Valid()
      reads this, hosts
    {
      && Linked()
      && columnHeights == Full().heights
      && forall c :: 0 <= c < columnCount ==> Flat(columns[c], chains[c]) == Full().columns[c]
    }

    /** The layout of the whole item list from scratch. */
    ghost function Full(): Layout
      requires columnCount > 0 && spacing >= 0.0
      reads this
    {
      Place(Empty(columnCount), items, spacing)
    }

    constructor (columnCount: int, spacing: real)
      ensures Valid() && items == []
      ensures this.columnCount == (if columnCount < 1 then 1 else columnCount) && this.spacing == (if spacing < 0.0 then 0.0 else spacing)
      ensures fresh(hosts)
    {
      this.columnCount := if columnCount < 1 then 1 else columnCount;
      this.spacing := if spacing < 0.0 then 0.0 else spacing;
      this.items, this.columnHeights, this.columns, this.tailHosts, this.chains, this.hosts := [], [], [], [], [], {};
      new;
      Rebuild();
    }

    /** The placing loop of a rebuild. */
    method PlaceAll()
      requires columnCount > 0 && spacing >= 0.0
      modifies this`columns, this`columnHeights
      ensures Layout(columnHeights, columns) == Full()
    {
      columns := Empty(columnCount).columns;
      columnHeights := Zeros(columnCount);
      var i := 0;
      while i < |items|
        invariant 0 <= i <= |items|
        invariant Wide(Layout(columnHeights, columns), columnCount)
        invariant Place(Layout(columnHeights, columns), items[i..], spacing) == Full()
      {
        var target := ArgMin(columnHeights);
        columns := columns[target := columns[target] + [items[i]]];
        columnHeights := AddTo(columnHeights, target, Cost(items[i], spacing));
        assert items[i..][1..] == items[i + 1..];
        i := i + 1;
      }
    }

    /** Every column gets a chain of one empty host. */
    method NewTails()
      modifies this`tailHosts, this`chains, this`hosts
      ensures |tailHosts| == |chains| == columnCount && Apart(chains) && fresh(hosts)
      ensures forall c :: 0 <= c < columnCount ==>
                EndsIn(chains[c], tailHosts[c]) && Cards(chains[c]) == [] && |chains[c]| == 1 && chains[c][0] in hosts
    {
      tailHosts := NewHosts(columnCount);
      SinglesAreApart(tailHosts);
      chains, hosts := Singles(tailHosts), set h | h in tailHosts;
    }

    method Rebuild()
      requires columnCount > 0 && spacing >= 0.0
      modifies this
      ensures Valid() && columnCount == old(columnCount) && items == old(items)
      ensures columns == Full().columns && forall c :: 0 <= c < columnCount ==> |chains[c]| == 1
      ensures fresh(hosts)
    {
      NewTails();
      PlaceAll();
      forall c | 0 <= c < columnCount
        ensures Flat(columns[c], chains[c]) == columns[c]
      {
        assert columns[c] + [] == columns[c];
      }
    }

    method SetItems(newItems: seq<Item>)
      requires Valid()
      modifies this
      ensures Valid() && items == newItems && columnCount == old(columnCount) && fresh(hosts)
    {
      items := newItems;
      Rebuild();
    }

    method SetColumnCount(count: int) returns (changed: bool)
      requires Valid()
      modifies this
      ensures Valid() && items == old(items)
      ensures columnCount == if count < 1 then 1 else count
      ensures changed <==> columnCount != old(columnCount)
      ensures changed ==> fresh(hosts)
    {
      var normalized := if count < 1 then 1 else count;
      if normalized == columnCount {
        return false;
      }
      columnCount := normalized;
      Rebuild();
      changed := true;
    }
  
    /** The distributing loop of an append: only heights and the item list change. */
    method Distribute(batch: seq<Item>) returns (batches: seq<seq<Item>>)
      requires columnCount > 0 && spacing >= 0.0 && |columnHeights| == columnCount
      modifies this`items, this`columnHeights
      ensures items == old(items) + batch
      ensures Layout(columnHeights, batches) == Place(Layout(old(columnHeights), Empty(columnCount).columns), batch, spacing)
    {
      batches := Empty(columnCount).columns;
      ghost var start := Layout(columnHeights, batches);
      var i := 0;
      while i < |batch|
        invariant 0 <= i <= |batch|
        invariant items == old(items) + batch[..i]
        invariant Wide(Layout(columnHeights, batches), columnCount)
        invariant Place(Layout(columnHeights, batches), batch[i..], spacing) == Place(start, batch, spacing)
      {
        var target := ArgMin(columnHeights);
        items := items + [batch[i]];
        batches := batches[target := batches[target] + [batch[i]]];
        columnHeights := AddTo(columnHeights, target, Cost(batch[i], spacing));
        assert batch[i..][1..] == batch[i + 1..];
        i := i + 1;
      }
    }

    /** The hosts of one chain change, those of all others do not. */
    method ExtendChain(c: nat, cards: seq<Item>) returns (nextTail: Host)
      requires Linked() && c < columnCount
      modifies tailHosts[c]
      ensures fresh(nextTail) && EndsIn(chains[c] + [nextTail], nextTail)
      ensures Cards(chains[c] + [nextTail]) == old(Cards(chains[c])) + cards
      ensures forall d :: 0 <= d < columnCount && d != c ==> EndsIn(chains[d], tailHosts[d]) && Cards(chains[d]) == old(Cards(chains[d]))
    {
      assert tailHosts[c] in chains[c];
      OthersLackHost(chains, c, tailHosts[c]);
      nextTail := FillTail(tailHosts[c], chains[c], cards);
    }

    /** Hangs a batch into the empty host of one column. */
    method FillColumn(c: nat, cards: seq<Item>)
      requires Linked() && c < columnCount
      modifies this`tailHosts, this`chains, this`hosts, tailHosts[c]
      ensures Linked() && fresh(hosts - old(hosts)) && old(hosts) <= hosts
      ensures Flat(columns[c], chains[c]) == old(Flat(columns[c], chains[c])) + cards
      ensures chains[c] == old(chains[c]) + [tailHosts[c]]
      ensures forall d :: 0 <= d < columnCount && d != c ==>
                tailHosts[d] == old(tailHosts[d]) && chains[d] == old(chains[d]) && Flat(columns[d], chains[d]) == old(Flat(columns[d], chains[d]))
    {
      var nextTail := ExtendChain(c, cards);
      ApartWithNewHost(chains, c, nextTail);
      tailHosts := tailHosts[c := nextTail];
      chains := chains[c := chains[c] + [nextTail]];
      hosts := hosts + {nextTail};
      assert forall d :: 0 <= d < columnCount ==> EndsIn(chains[d], tailHosts[d]);
      assert columns[c] + (old(Cards(chains[c])) + cards) == (columns[c] + old(Cards(chains[c]))) + cards;
    }

    /** The filling loop of an append: every column with new cards takes them in its empty host. */
    method FillColumns(batches: seq<seq<Item>>) returns (touched: seq<Host>)
      requires Linked() && |batches| == columnCount
      modifies this`tailHosts, this`chains, this`hosts, tailHosts
      ensures Linked() && fresh(hosts - old(hosts))
      ensures forall c :: 0 <= c < columnCount ==> Flat(columns[c], chains[c]) == old(Flat(columns[c], chains[c])) + batches[c]
      ensures forall h :: h in touched <==> exists c :: 0 <= c < columnCount && batches[c] != [] && h == old(tailHosts)[c]
    {
      touched := [];
      var c := 0;
      while c < columnCount
        invariant 0 <= c <= columnCount
        invariant Linked() && fresh(hosts - old(hosts)) && old(hosts) <= hosts
        invariant forall d :: 0 <= d < c ==> Flat(columns[d], chains[d]) == old(Flat(columns[d], chains[d])) + batches[d]
        invariant forall d :: c <= d < columnCount ==> Flat(columns[d], chains[d]) == old(Flat(columns[d], chains[d])) && tailHosts[d] == old(tailHosts)[d]
        invariant forall h :: h in touched <==> exists d :: 0 <= d < c && batches[d] != [] && h == old(tailHosts)[d]
      {
        if batches[c] != [] {
          touched := touched + [tailHosts[c]];
          FillColumn(c, batches[c]);
        }
        c := c + 1;
      }
    }

    /**
     Appends a batch; only hosts that were empty change, everything mounted before stays as it is.  The hosts
     returned are those of the columns that got something.
     */
    method AppendBatch(batch: seq<Item>) returns (touched: seq<Host>)
      requires Valid()
      modifies this, tailHosts
      ensures Valid() && columnCount == old(columnCount) && items == old(items) + batch
      ensures fresh(hosts - old(hosts)) && columns == old(columns)
      ensures forall h :: h in touched <==>
                exists c :: 0 <= c < columnCount && h == old(tailHosts)[c] && Full().columns[c] != old(Full()).columns[c]
    {
      ghost var before := Full();
      AppendIsRebuild(columnCount, items, batch, spacing);
      var batches := Distribute(batch);
      assert forall c :: 0 <= c < columnCount ==> (batches[c] != [] <==> Full().columns[c] != before.columns[c]);
      touched := FillColumns(batches);
    }
  }
}
