/**
 * The tile set of catanboard.py: the resource list built from resource_distribution, the
 * production-number list, the two shuffles, and the loop that deals one number to every
 * tile but the desert. Each shuffle is an input: the permutation random.shuffle chose.
 * The board graph G, which environment.py and game.py import from catanboard but
 * catanboard.py does not define, is declared here as plain data.
 */
module Board {
  import opened Wrappers

  /** The six tile kinds; the first five are also the kinds a player's hand holds. */
  datatype Resource = Wheat | Sheep | Ore | Brick | Wood | Desert

  /** A hex tile: its resource and its production number (None for the desert). */
  datatype Tile = Tile(resource: Resource, frequency: Option<int>)
  {
    /** get_resource: the kind the tile yields, and None exactly for the desert. */
    function GetResource(): (r: Option<Resource>)
      ensures r.None? <==> resource == Desert
      ensures r.Some? ==> r.value == resource && r.value != Desert
    {
      if resource != Desert then Some(resource) else None
    }
  }

  /** resource_distribution, in its insertion order. */
  const Distribution: seq<(Resource, nat)> :=
    [(Wheat, 4), (Sheep, 4), (Ore, 3), (Brick, 3), (Wood, 4), (Desert, 1)]

  /** The production numbers, in the order of the list literal. */
  const Frequencies: seq<int> := [5, 2, 6, 3, 8, 10, 9, 12, 11, 4, 8, 10, 9, 4, 5, 6, 3, 11]

  /** `n` copies of `r`. */
  function Repeat(r: Resource, n: nat): seq<Resource>
  {
    seq(n, _ => r)
  }

  /** The list the nested loop over `d` appends to: every kind, as often as its count. */
  function Expand(d: seq<(Resource, nat)>): seq<Resource>
  {
    if d == [] then [] else Expand(d[..|d| - 1]) + Repeat(d[|d| - 1].0, d[|d| - 1].1)
  }

  /** A shuffle outcome on n positions: every position below n, none twice. */
  predicate IsPermutation(p: seq<nat>, n: nat)
  {
    && |p| == n
    && (forall i :: 0 <= i < n ==> p[i] < n)
    && (forall i, j :: 0 <= i < j < n ==> p[i] != p[j])
  }

  /** The list `s` after a shuffle that moved old position p[i] to position i. */
  function Permute<T>(s: seq<T>, p: seq<nat>): (r: seq<T>)
    requires IsPermutation(p, |s|)
    ensures |r| == |s|
  {
    seq(|s|, i requires 0 <= i < |s| => s[p[i]])
  }

  /** How many entries of `rs` are not the desert, i.e. how many numbers a deal pops. */
  function NonDesertCount(rs: seq<Resource>): nat
  {
    if rs == [] then 0
    else NonDesertCount(rs[..|rs| - 1]) + (if rs[|rs| - 1] == Desert then 0 else 1)
  }

  /** The production numbers the tiles carry, in tile order. */
  function Numbers(tiles: seq<Tile>): seq<int>
  {
    if tiles == [] then []
    else
      var last := tiles[|tiles| - 1];
      Numbers(tiles[..|tiles| - 1]) + (if last.frequency.Some? then [last.frequency.value] else [])
  }

  /** `s` back to front. */
  function Reverse<T>(s: seq<T>): (r: seq<T>)
    ensures |r| == |s|
  {
    if s == [] then [] else Reverse(s[1..]) + [s[0]]
  }

  lemma ReverseCons<T>(x: T, s: seq<T>)
    ensures Reverse([x] + s) == Reverse(s) + [x]
  {
    assert ([x] + s)[1..] == s;
  }

  /** Reading a reversed list at k reads the original k places from its end. */
  lemma {:induction false} ReverseAt<T>(s: seq<T>, k: nat)
    requires k < |s|
    ensures Reverse(s)[k] == s[|s| - 1 - k]
    decreases |s|
  {
    if k < |s| - 1 {
      ReverseAt(s[1..], k);
    }
  }

  /** Reversing keeps every element and its multiplicity. */
  lemma {:induction false} ReversePreservesMultiset<T>(s: seq<T>)
    ensures multiset(Reverse(s)) == multiset(s)
    decreases |s|
  {
    if s != [] {
      ReversePreservesMultiset(s[1..]);
      assert s == [s[0]] + s[1..];
    }
  }

  /** The positions of `p` but its last, renumbered as if position j had been removed. */
  function Reindex(p: seq<nat>, j: nat): (q: seq<nat>)
    requires |p| > 0
    ensures |q| == |p| - 1
  {
    seq(|p| - 1, i requires 0 <= i < |p| - 1 => if p[i] <= j then p[i] else p[i] - 1)
  }

  /** Removing the last entry of a permutation and renumbering leaves a permutation. */
  lemma ReindexIsPermutation(p: seq<nat>, n: nat)
    requires n > 0 && IsPermutation(p, n)
    ensures IsPermutation(Reindex(p, p[n - 1]), n - 1)
  {
    var j := p[n - 1];
    var q := Reindex(p, j);
    forall i | 0 <= i < n - 1
      ensures q[i] < n - 1
    {
      assert p[i] != j;
    }
    forall i, k | 0 <= i < k < n - 1
      ensures q[i] != q[k]
    {
      assert p[i] != p[k] && p[i] != j && p[k] != j;
    }
  }

  /** A shuffle of s is a shuffle of s without the entry that lands last, plus that entry. */
  lemma PermuteSplitLast<T>(s: seq<T>, p: seq<nat>)
    requires |s| > 0 && IsPermutation(p, |s|)
    ensures var j := p[|s| - 1];
      IsPermutation(Reindex(p, j), |s| - 1) &&
      Permute(s, p) == Permute(s[..j] + s[j + 1..], Reindex(p, j)) + [s[j]]
  {
    var n := |s|;
    var j := p[n - 1];
    ReindexIsPermutation(p, n);
    var rest := s[..j] + s[j + 1..];
    var q := Reindex(p, j);
    forall i | 0 <= i < n - 1
      ensures rest[q[i]] == s[p[i]]
    {
      assert p[i] != j;
    }
  }

  /** Taking out the entry at j leaves the multiset less that one entry. */
  lemma MultisetWithout<T>(s: seq<T>, j: nat)
    requires j < |s|
    ensures multiset(s) == multiset(s[..j] + s[j + 1..]) + multiset{s[j]}
  {
    assert s == s[..j] + [s[j]] + s[j + 1..];
  }

  /** A shuffle keeps every element and its multiplicity. */
  lemma {:induction false} PermutePreservesMultiset<T>(s: seq<T>, p: seq<nat>)
    requires IsPermutation(p, |s|)
    ensures multiset(Permute(s, p)) == multiset(s)
    decreases |s|
  {
    if |s| > 0 {
      var j := p[|s| - 1];
      var rest, q := s[..j] + s[j + 1..], Reindex(p, j);
      PermuteSplitLast(s, p);
      PermutePreservesMultiset(rest, q);
      MultisetWithout(s, j);
    }
  }

  lemma {:induction false} NonDesertCountAppend(a: seq<Resource>, b: seq<Resource>)
    ensures NonDesertCount(a + b) == NonDesertCount(a) + NonDesertCount(b)
    decreases |b|
  {
    if b == [] {
      assert a + b == a;
    } else {
      var init := b[..|b| - 1];
      assert (a + b)[..|a + b| - 1] == a + init;
      NonDesertCountAppend(a, init);
    }
  }

  /** The number of non-desert entries is the length less the desert's multiplicity. */
  lemma {:induction false} NonDesertCountByMultiset(rs: seq<Resource>)
    ensures NonDesertCount(rs) == |rs| - multiset(rs)[Desert]
    decreases |rs|
  {
    if rs != [] {
      var init := rs[..|rs| - 1];
      assert rs == init + [rs[|rs| - 1]];
      NonDesertCountByMultiset(init);
    }
  }

  /** An element of multiplicity one stands at exactly one position. */
  lemma {:induction false} SingleOccurrence<T>(s: seq<T>, x: T)
    requires multiset(s)[x] == 1
    ensures exists d :: 0 <= d < |s| && s[d] == x && forall k :: 0 <= k < |s| && k != d ==> s[k] != x
    decreases |s|
  {
    assert s == [s[0]] + s[1..];
    if s[0] == x {
      assert multiset(s[1..])[x] == 0;
      forall k | 1 <= k < |s|
        ensures s[k] != x
      {
        assert s[k] == s[1..][k - 1];
      }
    } else {
      SingleOccurrence(s[1..], x);
      var d :| 0 <= d < |s[1..]| && s[1..][d] == x && forall k :: 0 <= k < |s[1..]| && k != d ==> s[1..][k] != x;
      forall k | 0 <= k < |s| && k != d + 1
        ensures s[k] != x
      {
        if k > 0 {
          assert s[k] == s[1..][k - 1];
        }
      }
    }
  }


  lemma {:induction false} RepeatCount(r: Resource, n: nat, x: Resource)
    ensures multiset(Repeat(r, n))[x] == if x == r then n else 0
  {
    if n > 0 {
      assert Repeat(r, n) == Repeat(r, n - 1) + [r];
      RepeatCount(r, n - 1, x);
    }
  }

  /** The resource list is the kinds of resource_distribution in its order, each repeated. */
  lemma StandardResourceList()
    ensures Expand(Distribution) == StandardKinds()
  {
    var d := Distribution;
    assert d[..2][..1] == d[..1] && d[..3][..2] == d[..2];
    assert d[..4][..3] == d[..3] && d[..5][..4] == d[..4] && d[..6][..5] == d[..5] && d[..6] == d;
    assert Expand(d[..1]) == Repeat(Wheat, 4);
    assert Expand(d[..2]) == Expand(d[..1]) + Repeat(Sheep, 4);
    assert Expand(d[..3]) == Expand(d[..2]) + Repeat(Ore, 3);
    assert Expand(d[..4]) == Expand(d[..3]) + Repeat(Brick, 3);
    assert Expand(d[..5]) == Expand(d[..4]) + Repeat(Wood, 4);
  }

  /** The standard kinds, each repeated as often as resource_distribution says. */
  function StandardKinds(): seq<Resource>
  {
    Repeat(Wheat, 4) + Repeat(Sheep, 4) + Repeat(Ore, 3) + Repeat(Brick, 3) + Repeat(Wood, 4) + Repeat(Desert, 1)
  }

  /** How many tiles of kind x resource_distribution asks for. */
  function StandardCount(x: Resource): nat
  {
    match x
    case Wheat => 4
    case Sheep => 4
    case Ore => 3
    case Brick => 3
    case Wood => 4
    case Desert => 1
  }

  lemma StandardKindsCount(x: Resource)
    ensures multiset(StandardKinds())[x] == StandardCount(x)
  {
    RepeatCount(Wheat, 4, x);
    RepeatCount(Sheep, 4, x);
    RepeatCount(Ore, 3, x);
    RepeatCount(Brick, 3, x);
    RepeatCount(Wood, 4, x);
    RepeatCount(Desert, 1, x);
  }

  /** The resource list has 19 entries: wheat 4, sheep 4, ore 3, brick 3, wood 4, desert 1. */
  lemma StandardResourceCounts()
    ensures |Expand(Distribution)| == 19
    ensures forall x :: multiset(Expand(Distribution))[x] == StandardCount(x)
  {
    StandardResourceList();
    forall x: Resource
      ensures multiset(Expand(Distribution))[x] == StandardCount(x)
    {
      StandardKindsCount(x);
    }
  }

  /** The resource list after the shuffle `order`: the same 19 entries, rearranged. */
  function ShuffledResources(order: seq<nat>): (rs: seq<Resource>)
    requires IsPermutation(order, 19)
    ensures |rs| == 19 && multiset(rs) == multiset(Expand(Distribution))
  {
    StandardResourceCounts();
    PermutePreservesMultiset(Expand(Distribution), order);
    Permute(Expand(Distribution), order)
  }

  /** The module-level loop over resource_distribution that fills `resources`. */
  method BuildResourceList() returns (resources: seq<Resource>)
    ensures resources == Expand(Distribution)
  {
    resources := [];
    var k := 0;
    while k < |Distribution|
      invariant 0 <= k <= |Distribution|
      invariant resources == Expand(Distribution[..k])
    {
      var (kind, count) := Distribution[k];
      var j := 0;
      while j < count
        invariant 0 <= j <= count
        invariant resources == Expand(Distribution[..k]) + Repeat(kind, j)
      {
        resources := resources + [kind];
        j := j + 1;
      }
      assert Distribution[..k + 1][..k] == Distribution[..k];
      k := k + 1;
    }
    assert Distribution[..k] == Distribution;
  }

  /** One more entry adds one to the count unless it is the desert; no prefix counts more than the whole. */
  lemma NonDesertCountStep(rs: seq<Resource>, i: nat)
    requires i < |rs|
    ensures NonDesertCount(rs[..i + 1]) == NonDesertCount(rs[..i]) + (if rs[i] == Desert then 0 else 1)
    ensures NonDesertCount(rs[..i + 1]) <= NonDesertCount(rs)
  {
    var prefix := rs[..i + 1];
    assert prefix[..i] == rs[..i] && prefix[i] == rs[i];
    var suffix := rs[i + 1..];
    assert prefix + suffix == rs;
    NonDesertCountAppend(prefix, suffix);
  }

  /** list.pop(): the last element, and the list without it. */
  method Pop(list: seq<int>) returns (last: int, rest: seq<int>)
    requires |list| > 0
    ensures list == rest + [last]
    ensures multiset(list) == multiset(rest) + multiset{last}
  {
    last := list[|list| - 1];
    rest := list[..|list| - 1];
    assert list == rest + [last];
  }

  /** One pass of the loop body: the tile for `resource`, popping a number unless it is the desert. */
  method DealTile(resource: Resource, frequencies: seq<int>) returns (tile: Tile, rest: seq<int>)
    requires resource != Desert ==> |frequencies| > 0
    ensures tile.resource == resource
    ensures tile.frequency.None? <==> resource == Desert
    ensures tile.frequency.None? ==> rest == frequencies
    ensures tile.frequency.Some? ==> frequencies == rest + [tile.frequency.value]
  {
    var frequency: Option<int>;
    if resource == Desert {
      frequency := None;
      rest := frequencies;
    } else {
      var number;
      number, rest := Pop(frequencies);
      frequency := Some(number);
    }
    tile := Tile(resource, frequency);
  }

  lemma NumbersSnoc(tiles: seq<Tile>, tile: Tile)
    ensures Numbers(tiles + [tile]) ==
      Numbers(tiles) + (if tile.frequency.Some? then [tile.frequency.value] else [])
  {
    assert (tiles + [tile])[..|tiles|] == tiles;
  }

  /**
   * After dealing resources[..i]: one tile per resource with its kind and a number exactly
   * when it is not the desert, one number taken per non-desert resource from the end of
   * `numbers`, and the numbers carried so far are the taken tail reversed.
   */
  ghost predicate Dealt(resources: seq<Resource>, numbers: seq<int>, i: nat, tiles: seq<Tile>, frequencies: seq<int>)
  {
    && i <= |resources|
    && |tiles| == i
    && |frequencies| + NonDesertCount(resources[..i]) == |numbers|
    && frequencies == numbers[..|frequencies|]
    && Numbers(tiles) == Reverse(numbers[|frequencies|..])
    && forall k :: 0 <= k < i ==>
         tiles[k].resource == resources[k] && (tiles[k].frequency.None? <==> resources[k] == Desert)
  }

  /** Dealing the tile for resources[i], as DealTile does, extends the deal by one resource. */
  lemma DealStep(resources: seq<Resource>, numbers: seq<int>, i: nat, tiles: seq<Tile>, frequencies: seq<int>,
                 tile: Tile, rest: seq<int>)
    requires Dealt(resources, numbers, i, tiles, frequencies) && i < |resources|
    requires tile.resource == resources[i]
    requires tile.frequency.None? <==> resources[i] == Desert
    requires tile.frequency.None? ==> rest == frequencies
    requires tile.frequency.Some? ==> frequencies == rest + [tile.frequency.value]
    ensures Dealt(resources, numbers, i + 1, tiles + [tile], rest)
  {
    NonDesertCountStep(resources, i);
    if tile.frequency.Some? {
      assert numbers[|rest|..] == [tile.frequency.value] + numbers[|frequencies|..];
      ReverseCons(tile.frequency.value, numbers[|frequencies|..]);
    }
    NumbersSnoc(tiles, tile);
  }

  /**
   * The loop that builds `tiles`: every tile gets its resource; the desert gets no number
   * and every other tile the number popped from the end of `numbers`. So the numbers read
   * in tile order are the consumed tail of `numbers` reversed. Nothing is popped from an
   * empty list as long as there are at least as many numbers as non-desert tiles.
   */
  method DealTiles(resources: seq<Resource>, numbers: seq<int>)
    returns (tiles: seq<Tile>, remaining: seq<int>)
    requires NonDesertCount(resources) <= |numbers|
    ensures |tiles| == |resources|
    ensures forall i :: 0 <= i < |resources| ==>
      tiles[i].resource == resources[i] && (tiles[i].frequency.None? <==> resources[i] == Desert)
    ensures |remaining| == |numbers| - NonDesertCount(resources)
    ensures remaining == numbers[..|remaining|]
    ensures Numbers(tiles) == Reverse(numbers[|remaining|..])
    ensures forall k :: 0 <= k < |numbers| - |remaining| ==>
      Numbers(tiles)[k] == numbers[|numbers| - 1 - k]
  {
    var frequencies := numbers;
    tiles := [];
    var i := 0;
    assert resources[..0] == [];
    while i < |resources|
      invariant Dealt(resources, numbers, i, tiles, frequencies)
    {
      NonDesertCountStep(resources, i);
      var tile, rest := DealTile(resources[i], frequencies);
      DealStep(resources, numbers, i, tiles, frequencies, tile, rest);
      tiles, frequencies := tiles + [tile], rest;
      i := i + 1;
    }
    assert resources[..i] == resources;
    remaining := frequencies;
    NumbersFromEnd(Numbers(tiles), numbers[|remaining|..]);
  }

  /** A production number a tile can carry: 2..12 without 7, the roll that produces nothing. */
  predicate ValidNumber(x: int)
  {
    2 <= x <= 12 && x != 7
  }

  /** Every entry of `numbers` is a valid production number. */
  predicate AllValid(numbers: seq<int>)
  {
    forall x :: x in numbers ==> ValidNumber(x)
  }

  /** The listed production numbers are eighteen valid ones. */
  lemma FrequencyValues()
    ensures |Frequencies| == 18 && AllValid(Frequencies)
  {
  }

  /** Every number a tile carries appears in Numbers. */
  lemma {:induction false} NumbersContains(tiles: seq<Tile>, k: nat)
    requires k < |tiles| && tiles[k].frequency.Some?
    ensures tiles[k].frequency.value in Numbers(tiles)
    decreases |tiles|
  {
    var init := tiles[..|tiles| - 1];
    if k < |tiles| - 1 {
      assert init[k] == tiles[k];
      NumbersContains(init, k);
    }
  }

  /** Tiles whose numbers are a rearrangement of valid numbers carry only valid numbers. */
  lemma NumbersInRange(tiles: seq<Tile>, numbers: seq<int>)
    requires multiset(Numbers(tiles)) == multiset(numbers)
    requires AllValid(numbers)
    ensures forall i :: 0 <= i < |tiles| && tiles[i].frequency.Some? ==> ValidNumber(tiles[i].frequency.value)
  {
    forall k | 0 <= k < |tiles| && tiles[k].frequency.Some?
      ensures ValidNumber(tiles[k].frequency.value)
    {
      NumbersContains(tiles, k);
      assert tiles[k].frequency.value in multiset(numbers);
    }
  }

  /** Exactly one tile is the desert, and it has no number; every other tile has one. */
  predicate OneDesert(tiles: seq<Tile>)
  {
    exists d :: 0 <= d < |tiles| && tiles[d] == Tile(Desert, None) &&
      (forall i :: 0 <= i < |tiles| && i != d ==> tiles[i].resource != Desert && tiles[i].frequency.Some?)
  }

  /** Dealing a list with a single desert leaves exactly one tile without a number. */
  lemma SingleDesertTile(resources: seq<Resource>, tiles: seq<Tile>)
    requires multiset(resources)[Desert] == 1 && |tiles| == |resources|
    requires forall i :: 0 <= i < |resources| ==>
      tiles[i].resource == resources[i] && (tiles[i].frequency.None? <==> resources[i] == Desert)
    ensures OneDesert(tiles)
  {
    SingleOccurrence(resources, Desert);
    var d :| 0 <= d < |resources| && resources[d] == Desert &&
             forall k :: 0 <= k < |resources| && k != d ==> resources[k] != Desert;
    assert tiles[d] == Tile(Desert, None);
  }

  /** random.shuffle on `list`, with the permutation it chose given as `order`. */
  method Shuffle<T>(list: seq<T>, order: seq<nat>) returns (shuffled: seq<T>)
    requires IsPermutation(order, |list|)
    ensures shuffled == Permute(list, order)
    ensures multiset(shuffled) == multiset(list)
  {
    PermutePreservesMultiset(list, order);
    shuffled := Permute(list, order);
  }

  /** The standard resource list, built and shuffled: nineteen kinds, one of them the desert. */
  method ShuffleResources(resourceOrder: seq<nat>) returns (resources: seq<Resource>)
    requires IsPermutation(resourceOrder, 19)
    ensures resources == ShuffledResources(resourceOrder)
    ensures |resources| == 19 && multiset(resources)[Desert] == 1
    ensures NonDesertCount(resources) == 18
  {
    resources := BuildResourceList();
    assert |resources| == 19 && multiset(resources)[Desert] == 1 by {
      StandardResourceCounts();
    }
    resources := Shuffle(resources, resourceOrder);
    NonDesertCountByMultiset(resources);
  }

  /**
   * The tile construction of catanboard.py for any list of 18 numbers: build the resource
   * list, shuffle it and the numbers (as `resourceOrder` and `numberOrder` say), then deal.
   * Exactly one tile is the desert, without a number; the other tiles carry the numbers
   * of the list, each once, and the list ends empty.
   */
  method DealBoard(resourceOrder: seq<nat>, numberOrder: seq<nat>, numberList: seq<int>)
    returns (tiles: seq<Tile>, frequencies: seq<int>)
    requires |numberList| == 18
    requires IsPermutation(resourceOrder, 19)
    requires IsPermutation(numberOrder, 18)
    ensures |tiles| == 19 && frequencies == []
    ensures forall i :: 0 <= i < 19 ==> tiles[i].resource == ShuffledResources(resourceOrder)[i]
    ensures OneDesert(tiles)
    ensures Numbers(tiles) == Reverse(Permute(numberList, numberOrder))
    ensures multiset(Numbers(tiles)) == multiset(numberList)
    ensures forall k :: 0 <= k < 18 ==> Numbers(tiles)[k] == Permute(numberList, numberOrder)[17 - k]
  {
    var resources := ShuffleResources(resourceOrder);
    frequencies := Shuffle(numberList, numberOrder);
    ghost var numbers := frequencies;
    tiles, frequencies := DealTiles(resources, frequencies);
    assert multiset(Numbers(tiles)) == multiset(numberList) by {
      assert numbers[|frequencies|..] == numbers;
      ReversePreservesMultiset(numbers);
    }
    SingleDesertTile(resources, tiles);
  }

  /**
   * The board's tiles: exactly one desert without a number, and the eighteen listed
   * numbers spread over the other tiles, so no tile carries a 7 or a number outside 2..12.
   */
  method GenerateTiles(resourceOrder: seq<nat>, numberOrder: seq<nat>)
    returns (tiles: seq<Tile>, frequencies: seq<int>)
    requires IsPermutation(resourceOrder, 19)
    requires IsPermutation(numberOrder, 18)
    ensures |tiles| == 19 && frequencies == []
    ensures forall i :: 0 <= i < 19 ==> tiles[i].resource == ShuffledResources(resourceOrder)[i]
    ensures OneDesert(tiles)
    ensures Numbers(tiles) == Reverse(Permute(Frequencies, numberOrder))
    ensures multiset(Numbers(tiles)) == multiset(Frequencies)
    ensures forall i :: 0 <= i < |tiles| && tiles[i].frequency.Some? ==> ValidNumber(tiles[i].frequency.value)
    ensures forall k :: 0 <= k < 18 ==> Numbers(tiles)[k] == Permute(Frequencies, numberOrder)[17 - k]
  {
    FrequencyValues();
    tiles, frequencies := DealBoard(resourceOrder, numberOrder, Frequencies);
    NumbersInRange(tiles, Frequencies);
  }

  /** The k-th number dealt is the list's k-th entry from the end, since pop takes the last. */
  lemma NumbersFromEnd(numbers: seq<int>, shuffled: seq<int>)
    requires numbers == Reverse(shuffled)
    ensures forall k :: 0 <= k < |shuffled| ==> numbers[k] == shuffled[|shuffled| - 1 - k]
  {
    forall k | 0 <= k < |shuffled|
      ensures numbers[k] == shuffled[|shuffled| - 1 - k]
    {
      ReverseAt(shuffled, k);
    }
  }

  /** A node of the board graph G. */
  type NodeId = int

  /** A road: the two nodes it joins, in the order it was listed. */
  type Edge = (NodeId, NodeId)

  /**
   * The board graph G as the rules read it: its nodes in iteration order, each node's
   * neighbours in iteration order, its edges in iteration order, and each node's
   * occupied_by attribute (None, or the name of the player on it).
   */
  datatype Graph = Graph(
    nodes: seq<NodeId>,
    neighbors: map<NodeId, seq<NodeId>>,
    edges: seq<Edge>,
    occupiedBy: map<NodeId, Option<string>>)
  {
    /** has_edge: the graph is undirected, so either orientation is the same edge. */
    predicate HasEdge(a: NodeId, b: NodeId)
    {
      (a, b) in edges || (b, a) in edges
    }

    /**
     * Every node has an occupied_by entry and a neighbour list, the neighbour lists are
     * those of nodes only, and neighbours are nodes.
     */
    predicate Valid()
    {
      && (forall n :: n in nodes ==> n in neighbors && n in occupiedBy)
      && (forall n :: n in neighbors ==> n in nodes)
      && (forall n, i :: n in neighbors && 0 <= i < |neighbors[n]| ==>
            neighbors[n][i] in nodes && neighbors[n][i] in occupiedBy)
    }
  }
}
