/** Choosing the blocks of a document that fit into a byte budget: the best-scoring first, given back in their own order. */
module MaterialSelection {
  import opened Options
  import opened Sorting

  /** `score` counts the query's terms in the block; `bytes` is the length of the block written as JSON. */
  datatype Block = Block(id: nat, score: nat, bytes: nat)

  datatype Item = Item(index: nat, block: Block)

  const MAX_SAFE: int := 9007199254740991

  /** The length of the list written as JSON: brackets, elements, and commas between them. */
  function Size(s: seq<Item>): nat {
    if s == [] then 2 else Size(s[..|s| - 1]) + s[|s| - 1].block.bytes + (if |s| > 1 then 1 else 0)
  }

  function Items(blocks: seq<Block>): (r: seq<Item>)
    ensures |r| == |blocks| && forall i :: 0 <= i < |r| ==> r[i] == Item(i, blocks[i])
  {
    seq(|blocks|, i requires 0 <= i < |blocks| => Item(i, blocks[i]))
  }

  function ByRank(): (Item, Item) -> bool {
    (a: Item, b: Item) => if a.block.score != b.block.score then b.block.score < a.block.score else a.index < b.index
  }

  function ByIndex(): (Item, Item) -> bool { (a: Item, b: Item) => a.index < b.index }

  /** Does `x` fit beside what is chosen already? */
  predicate Fits(chosen: seq<Item>, x: Item, maxBytes: int) {
    Size(chosen) + x.block.bytes + (if chosen != [] then 1 else 0) <= maxBytes
  }

  function Chosen(ranked: seq<Item>, maxBytes: int): seq<Item> {
    if ranked == [] then []
    else
      var before, x := Chosen(ranked[..|ranked| - 1], maxBytes), ranked[|ranked| - 1];
      if Fits(before, x, maxBytes) then before + [x] else before
  }

  function Blocks(items: seq<Item>): seq<Block> { seq(|items|, i requires 0 <= i < |items| => items[i].block) }

  function Ranking(blocks: seq<Block>): seq<Item> { Sorted(Items(blocks), ByRank()) }

  /** The items selected, in their own order. */
  function Select(blocks: seq<Block>, maxBytes: int): Result<seq<Item>> {
    if maxBytes < 2 || maxBytes > MAX_SAFE then Err("CONTEXT_MATERIAL_LIMIT")
    else if Size(Items(blocks)) <= maxBytes then Ok(Items(blocks))
    else
      var chosen := Chosen(Ranking(blocks), maxBytes);
      if chosen == [] then Err("CONTEXT_MATERIAL_LIMIT") else Ok(Sorted(chosen, ByIndex()))
  }

  method SelectMaterialBlocks(blocks: seq<Block>, maxBytes: int) returns (r: Result<seq<Block>>)
    ensures r == match Select(blocks, maxBytes) case Ok(items) => Ok(Blocks(items)) case Err(code) => Err(code)
  {
    if maxBytes < 2 || maxBytes > MAX_SAFE {
      return Err("CONTEXT_MATERIAL_LIMIT");
    }
    var items := Items(blocks);
    if Size(items) <= maxBytes {
      assert Blocks(items) == blocks;
      return Ok(blocks);
    }
    var ranked := new Item[|items|](i requires 0 <= i < |items| => items[i]);
    assert ranked[..] == items;
    Sort(ranked, ByRank());
    ghost var ranking := ranked[..];
    var selected: seq<Item> := [];
    var used := 2;
    var i := 0;
    while i < ranked.Length
      invariant 0 <= i <= ranked.Length && ranked[..] == ranking
      invariant selected == Chosen(ranking[..i], maxBytes) && used == Size(selected)
    {
      var candidate := ranked[i];
      var bytes := candidate.block.bytes + if |selected| > 0 then 1 else 0;
      assert ranking[..i + 1][..i] == ranking[..i];
      if used + bytes <= maxBytes {
        assert (selected + [candidate])[..|selected|] == selected;
        selected := selected + [candidate];
        used := used + bytes;
      }
      i := i + 1;
    }
    assert ranking[..i] == ranking;
    if selected == [] {
      return Err("CONTEXT_MATERIAL_LIMIT");
    }
    var ordered := new Item[|selected|](i requires 0 <= i < |selected| => selected[i]);
    assert ordered[..] == selected;
    Sort(ordered, ByIndex());
    r := Ok(Blocks(ordered[..]));
  }

  // ---------------------------------------------------------------- both orders rank

  predicate DistinctIndices(s: seq<Item>) { forall x, y :: x in s && y in s && x.index == y.index ==> x == y }

  lemma BothOrdersRank(s: seq<Item>)
    requires DistinctIndices(s)
    ensures Ranks(ByRank(), s) && Ranks(ByIndex(), s)
  {
  }

  lemma RankingIsRanked(blocks: seq<Block>)
    ensures var r := Ranking(blocks);
            && multiset(r) == multiset(Items(blocks)) && DistinctIndices(r) && Ordered(r, ByRank()) && Ranks(ByRank(), r)
            && (forall x :: x in r <==> x in Items(blocks))
            && forall i, j :: 0 <= i < j < |r| ==> r[i] != r[j]
  {
    var items := Items(blocks);
    BothOrdersRank(items);
    SortedPermutes(items, ByRank());
    SortedIsOrdered(items, ByRank());
    var r := Ranking(blocks);
    assert forall i, j :: 0 <= i < j < |items| ==> items[i] != items[j];
    NoRepeats(items, r);
  }

  lemma NoRepeats(a: seq<Item>, b: seq<Item>)
    requires multiset(a) == multiset(b) && forall i, j :: 0 <= i < j < |a| ==> a[i] != a[j]
    ensures forall i, j :: 0 <= i < j < |b| ==> b[i] != b[j]
  {
    forall i, j | 0 <= i < j < |b| ensures b[i] != b[j] {
      if b[i] == b[j] {
        assert b == b[..j] + [b[j]] + b[j + 1..];
        assert multiset(b)[b[j]] >= 2 by {
          assert b[i] in b[..j];
          assert multiset(b[..j])[b[j]] >= 1;
        }
        Occurrence(a, b[j]);
        assert false;
      }
    }
  }

  lemma {:induction false} Occurrence(a: seq<Item>, x: Item)
    requires forall i, j :: 0 <= i < j < |a| ==> a[i] != a[j]
    ensures multiset(a)[x] <= 1
  {
    if a != [] {
      var front := a[..|a| - 1];
      Occurrence(front, x);
      assert a == front + [a[|a| - 1]];
      assert a[|a| - 1] !in front;
    }
  }

  // ---------------------------------------------------------------- the greedy choice

  function Keep(s: seq<Item>, p: Item -> bool): (r: seq<Item>)
    ensures forall x :: x in r <==> x in s && p(x)
  {
    if s == [] then [] else Keep(s[..|s| - 1], p) + (if p(s[|s| - 1]) then [s[|s| - 1]] else [])
  }

  lemma {:induction false} ChosenIsWithin(ranked: seq<Item>, maxBytes: int)
    ensures forall x :: x in Chosen(ranked, maxBytes) ==> x in ranked
    ensures maxBytes >= 2 ==> Size(Chosen(ranked, maxBytes)) <= maxBytes
  {
    if ranked != [] {
      var front, x := ranked[..|ranked| - 1], ranked[|ranked| - 1];
      ChosenIsWithin(front, maxBytes);
      var before := Chosen(front, maxBytes);
      assert (before + [x])[..|before|] == before;
    }
  }

  /** An item is chosen exactly when it fits beside the chosen items ranked before it. */
  lemma {:induction false} ChosenExactlyWhen(ranked: seq<Item>, maxBytes: int, k: nat)
    requires k < |ranked| && forall i, j :: 0 <= i < j < |ranked| ==> ranked[i] != ranked[j]
    ensures ranked[k] in Chosen(ranked, maxBytes) <==> Fits(Chosen(ranked[..k], maxBytes), ranked[k], maxBytes)
    decreases |ranked|
  {
    var n := |ranked| - 1;
    var front := ranked[..n];
    ChosenIsWithin(front, maxBytes);
    if k == n {
      assert ranked[n] !in front;
    } else {
      ChosenExactlyWhen(front, maxBytes, k);
      assert front[..k] == ranked[..k];
      assert front[k] == ranked[k] && ranked[k] != ranked[n];
    }
  }

  /** The chosen items that rank before `ranked[k]` are those chosen before it. */
  lemma {:induction false} ChosenBefore(ranked: seq<Item>, maxBytes: int, k: nat, x: Item)
    requires k < |ranked| || k == |ranked|
    requires forall i :: 0 <= i < |ranked| ==> (ByRank()(ranked[i], x) <==> i < k)
    ensures Keep(Chosen(ranked, maxBytes), (y: Item) => ByRank()(y, x)) == Chosen(ranked[..k], maxBytes)
    decreases |ranked|
  {
    var p := (y: Item) => ByRank()(y, x);
    if ranked == [] {
    } else if k == |ranked| {
      assert ranked[..k] == ranked;
      ChosenIsWithin(ranked, maxBytes);
      var all := Chosen(ranked, maxBytes);
      forall i | 0 <= i < |all| ensures p(all[i]) {
        assert all[i] in all;
      }
      KeepAll(all, p);
    } else {
      var front, last := ranked[..|ranked| - 1], ranked[|ranked| - 1];
      ChosenBefore(front, maxBytes, k, x);
      assert front[..k] == ranked[..k];
      var before := Chosen(front, maxBytes);
      assert (before + [last])[..|before|] == before;
    }
  }

  lemma {:induction false} KeepAll(s: seq<Item>, p: Item -> bool)
    requires forall i :: 0 <= i < |s| ==> p(s[i])
    ensures Keep(s, p) == s
  {
    if s != [] {
      KeepAll(s[..|s| - 1], p);
      assert s == s[..|s| - 1] + [s[|s| - 1]];
    }
  }

  lemma {:induction false} KeptCounts(s: seq<Item>, p: Item -> bool, x: Item)
    ensures multiset(Keep(s, p))[x] == if p(x) then multiset(s)[x] else 0
  {
    if s != [] {
      KeptCounts(s[..|s| - 1], p, x);
      assert s == s[..|s| - 1] + [s[|s| - 1]];
    }
  }

  lemma KeepPermutes(a: seq<Item>, b: seq<Item>, p: Item -> bool)
    requires multiset(a) == multiset(b)
    ensures multiset(Keep(a, p)) == multiset(Keep(b, p))
  {
    forall x ensures multiset(Keep(a, p))[x] == multiset(Keep(b, p))[x] {
      KeptCounts(a, p, x);
      KeptCounts(b, p, x);
    }
  }

  lemma {:induction false} SizeWithout(s: seq<Item>, i: nat)
    requires i < |s|
    ensures Size(s) == Size(s[..i] + s[i + 1..]) + s[i].block.bytes + (if |s| > 1 then 1 else 0)
    decreases |s|
  {
    var n := |s| - 1;
    if i == n {
      assert s[..i] + s[i + 1..] == s[..n];
    } else {
      SizeWithout(s[..n], i);
      var rest := s[..i] + s[i + 1..];
      assert rest[..|rest| - 1] == s[..n][..i] + s[..n][i + 1..];
      assert rest[|rest| - 1] == s[n];
    }
  }

  lemma RemovedFrom(b: seq<Item>, i: nat)
    requires i < |b|
    ensures multiset(b) == multiset(b[..i] + b[i + 1..]) + multiset{b[i]}
  {
    assert b == b[..i] + [b[i]] + b[i + 1..];
  }

  lemma SameRest(a: seq<Item>, b: seq<Item>, i: nat)
    requires a != [] && i < |b| && b[i] == a[|a| - 1] && multiset(a) == multiset(b)
    ensures multiset(a[..|a| - 1]) == multiset(b[..i] + b[i + 1..])
  {
    RemovedFrom(b, i);
    RemovedFrom(a, |a| - 1);
    assert a[..|a| - 1] + a[|a|..] == a[..|a| - 1];
    Cancel(multiset(a[..|a| - 1]), multiset(b[..i] + b[i + 1..]), b[i]);
  }

  lemma Cancel(a: multiset<Item>, b: multiset<Item>, x: Item)
    requires a + multiset{x} == b + multiset{x}
    ensures a == b
  {
    forall y ensures a[y] == b[y] {
      assert (a + multiset{x})[y] == (b + multiset{x})[y];
    }
  }

  /** The written size does not depend on the order. */
  lemma {:induction false} SizePermutes(a: seq<Item>, b: seq<Item>)
    requires multiset(a) == multiset(b)
    ensures Size(a) == Size(b)
    decreases |a|
  {
    assert |a| == |multiset(a)| == |multiset(b)| == |b|;
    if a != [] {
      assert a[|a| - 1] in multiset(b);
      var i :| 0 <= i < |b| && b[i] == a[|a| - 1];
      SizeWithout(b, i);
      SameRest(a, b, i);
      SizePermutes(a[..|a| - 1], b[..i] + b[i + 1..]);
    }
  }

  lemma {:induction false} SizeGrows(ranked: seq<Item>, maxBytes: int, k: nat)
    requires k <= |ranked|
    ensures Size(Chosen(ranked[..k], maxBytes)) <= Size(Chosen(ranked, maxBytes))
    ensures Chosen(ranked[..k], maxBytes) != [] ==> Chosen(ranked, maxBytes) != []
    decreases |ranked|
  {
    if k == |ranked| {
      assert ranked[..k] == ranked;
    } else {
      var front := ranked[..|ranked| - 1];
      SizeGrows(front, maxBytes, k);
      assert front[..k] == ranked[..k];
      var before := Chosen(front, maxBytes);
      assert (before + [ranked[|ranked| - 1]])[..|before|] == before;
    }
  }

  // ---------------------------------------------------------------- what is promised

  /** The result keeps the order of the blocks, never repeats one, and its JSON text fits into the budget. */
  lemma SelectionFitsInOrder(blocks: seq<Block>, maxBytes: int)
    requires Select(blocks, maxBytes).Ok?
    ensures var s := Select(blocks, maxBytes).value;
            && Size(s) <= maxBytes
            && (forall i, j :: 0 <= i < j < |s| ==> s[i].index < s[j].index)
            && forall i :: 0 <= i < |s| ==> s[i].index < |blocks| && s[i].block == blocks[s[i].index]
  {
    var items := Items(blocks);
    if Size(items) > maxBytes {
      RankingIsRanked(blocks);
      ChosenIsWithin(Ranking(blocks), maxBytes);
      SelectionPermutesChoice(blocks, maxBytes);
      var s, chosen := Select(blocks, maxBytes).value, Chosen(Ranking(blocks), maxBytes);
      SizePermutes(s, chosen);
      forall i, j | 0 <= i < j < |s| ensures s[i].index < s[j].index {
        assert s[i] in s && s[j] in s;
        assert !ByIndex()(s[j], s[i]);
      }
      forall i | 0 <= i < |s| ensures s[i].index < |blocks| && s[i].block == blocks[s[i].index] {
        assert s[i] in s;
        assert s[i] in items;
      }
    }
  }

  lemma {:induction false} ChosenHasNoRepeats(ranked: seq<Item>, maxBytes: int)
    requires forall i, j :: 0 <= i < j < |ranked| ==> ranked[i] != ranked[j]
    ensures forall i, j :: 0 <= i < j < |Chosen(ranked, maxBytes)| ==> Chosen(ranked, maxBytes)[i] != Chosen(ranked, maxBytes)[j]
  {
    if ranked != [] {
      ChosenHasNoRepeats(ranked[..|ranked| - 1], maxBytes);
      ChosenIsWithin(ranked[..|ranked| - 1], maxBytes);
      assert ranked[|ranked| - 1] !in ranked[..|ranked| - 1];
    }
  }

  lemma SelectionPermutesChoice(blocks: seq<Block>, maxBytes: int)
    requires Select(blocks, maxBytes).Ok? && Size(Items(blocks)) > maxBytes
    ensures var s, chosen := Select(blocks, maxBytes).value, Chosen(Ranking(blocks), maxBytes);
            && multiset(s) == multiset(chosen)
            && (forall x :: x in s <==> x in chosen)
            && (forall x :: x in s ==> x in Items(blocks))
            && Ordered(s, ByIndex()) && (forall i, j :: 0 <= i < j < |s| ==> s[i] != s[j]) && DistinctIndices(s)
  {
    RankingIsRanked(blocks);
    var chosen := Chosen(Ranking(blocks), maxBytes);
    ChosenIsWithin(Ranking(blocks), maxBytes);
    ChosenHasNoRepeats(Ranking(blocks), maxBytes);
    BothOrdersRank(chosen);
    SortedPermutes(chosen, ByIndex());
    SortedIsOrdered(chosen, ByIndex());
    NoRepeats(chosen, Sorted(chosen, ByIndex()));
  }

  /**
   When not everything fits: a block is selected exactly when it fits beside the selected blocks ranked before it,
   and no block left out could be added to the result.
   */
  lemma SelectionIsGreedyAndMaximal(blocks: seq<Block>, maxBytes: int, x: Item)
    requires Select(blocks, maxBytes).Ok? && Size(Items(blocks)) > maxBytes && x in Items(blocks)
    ensures var s := Select(blocks, maxBytes).value;
            && (x in s <==> Fits(Keep(s, (y: Item) => ByRank()(y, x)), x, maxBytes))
            && (x !in s ==> !Fits(s, x, maxBytes))
  {
    var ranking := Ranking(blocks);
    var s, chosen := Select(blocks, maxBytes).value, Chosen(ranking, maxBytes);
    RankingIsRanked(blocks);
    SelectionPermutesChoice(blocks, maxBytes);
    assert x in ranking;
    var k :| 0 <= k < |ranking| && ranking[k] == x;
    ChosenExactlyWhen(ranking, maxBytes, k);
    forall i | 0 <= i < |ranking| ensures ByRank()(ranking[i], x) <==> i < k {
      RankedPosition(ranking, i, k);
    }
    ChosenBefore(ranking, maxBytes, k, x);
    var p := (y: Item) => ByRank()(y, x);
    KeepPermutes(s, chosen, p);
    SizePermutes(Keep(s, p), Chosen(ranking[..k], maxBytes));
    SameEmptiness(Keep(s, p), Chosen(ranking[..k], maxBytes));
    SizePermutes(s, chosen);
    SizeGrows(ranking, maxBytes, k);
  }

  lemma SameEmptiness(a: seq<Item>, b: seq<Item>)
    requires multiset(a) == multiset(b)
    ensures a == [] <==> b == []
  {
    assert |a| == |multiset(a)| == |multiset(b)| == |b|;
  }

  lemma RankedPosition(ranking: seq<Item>, i: nat, k: nat)
    requires i < |ranking| && k < |ranking| && Ranks(ByRank(), ranking) && Ordered(ranking, ByRank())
    requires forall i, j :: 0 <= i < j < |ranking| ==> ranking[i] != ranking[j]
    ensures ByRank()(ranking[i], ranking[k]) <==> i < k
  {
    assert ranking[i] in ranking && ranking[k] in ranking;
    assert i < k ==> !ByRank()(ranking[k], ranking[i]);
    assert k < i ==> !ByRank()(ranking[i], ranking[k]);
  }

  lemma {:induction false} NothingChosen(ranked: seq<Item>, maxBytes: int)
    ensures Chosen(ranked, maxBytes) == [] <==> forall x :: x in ranked ==> 2 + x.block.bytes > maxBytes
  {
    if ranked != [] {
      var front, last := ranked[..|ranked| - 1], ranked[|ranked| - 1];
      NothingChosen(front, maxBytes);
      assert ranked == front + [last];
      assert last in ranked && forall x :: x in front ==> x in ranked;
    }
  }

  lemma {:induction false} SizeCoversEach(s: seq<Item>)
    ensures forall x :: x in s ==> 2 + x.block.bytes <= Size(s)
    ensures Size(s) >= 2
  {
    if s != [] {
      SizeCoversEach(s[..|s| - 1]);
      assert s == s[..|s| - 1] + [s[|s| - 1]];
    }
  }

  /** For a valid budget the call fails exactly when there are blocks but no single one fits. */
  lemma FailsExactlyWhen(blocks: seq<Block>, maxBytes: int)
    ensures Select(blocks, maxBytes).Err? <==>
              || maxBytes < 2 || maxBytes > MAX_SAFE
              || (blocks != [] && forall i :: 0 <= i < |blocks| ==> 2 + blocks[i].bytes > maxBytes)
  {
    if 2 <= maxBytes <= MAX_SAFE {
      var items := Items(blocks);
      RankingIsRanked(blocks);
      NothingChosen(Ranking(blocks), maxBytes);
      SizeCoversEach(items);
      assert forall i :: 0 <= i < |blocks| ==> items[i] in items && items[i].block == blocks[i];
      if blocks == [] {
        assert items == [];
      }
    }
  }

  // ---------------------------------------------------------------- in terms of scores and lengths

  function SumOfBytes(s: seq<Item>): nat { if s == [] then 0 else s[0].block.bytes + SumOfBytes(s[1..]) }

  lemma {:induction false} SumGrows(s: seq<Item>, x: Item)
    ensures SumOfBytes(s + [x]) == SumOfBytes(s) + x.block.bytes
    decreases |s|
  {
    if s == [] {
      assert s + [x] == [x] && [x][1..] == [];
    } else {
      SumGrows(s[1..], x);
      assert (s + [x])[1..] == s[1..] + [x];
    }
  }

  /** The size of a list is that of its elements, two brackets, and a comma between any two neighbours. */
  lemma {:induction false} SizeIsWritten(s: seq<Item>)
    ensures Size(s) == SumOfBytes(s) + if s == [] then 2 else 2 + (|s| - 1)
  {
    if s != [] {
      var front := s[..|s| - 1];
      SizeIsWritten(front);
      SumGrows(front, s[|front|]);
      assert front + [s[|front|]] == s;
    }
  }

  /** For a valid budget nothing is left out exactly when everything fits. */
  lemma AllAreSelectedExactlyWhen(blocks: seq<Block>, maxBytes: int)
    requires 2 <= maxBytes <= MAX_SAFE
    ensures Select(blocks, maxBytes) == Ok(Items(blocks)) <==>
              SumOfBytes(Items(blocks)) + (if blocks == [] then 2 else 1 + |blocks|) <= maxBytes
  {
    SizeIsWritten(Items(blocks));
    if Size(Items(blocks)) > maxBytes && Select(blocks, maxBytes).Ok? {
      SelectionFitsInOrder(blocks, maxBytes);
    }
  }

  /** A block left out is longer than every selected one that has a lower score, or the same score and a later place. */
  lemma LeftOutBlocksAreLonger(blocks: seq<Block>, maxBytes: int, i: nat, j: nat)
    requires Select(blocks, maxBytes).Ok? && i < |blocks| && j < |blocks|
    requires Item(i, blocks[i]) !in Select(blocks, maxBytes).value && Item(j, blocks[j]) in Select(blocks, maxBytes).value
    requires blocks[j].score < blocks[i].score || (blocks[j].score == blocks[i].score && i < j)
    ensures blocks[j].bytes < blocks[i].bytes
  {
    var ranking := Ranking(blocks);
    RankingIsRanked(blocks);
    IsItem(blocks, i);
    SelectionPermutesChoice(blocks, maxBytes);
    var a := PlaceOf(blocks, i);
    var b := PlaceOf(blocks, j);
    RankedPosition(ranking, a, b);
    LaterAndShorter(ranking, maxBytes, a, b);
  }

  lemma IsItem(blocks: seq<Block>, i: nat)
    requires i < |blocks|
    ensures Item(i, blocks[i]) in Items(blocks)
  {
    assert Items(blocks)[i] == Item(i, blocks[i]);
  }

  lemma PlaceOf(blocks: seq<Block>, i: nat) returns (k: nat)
    requires i < |blocks|
    ensures k < |Ranking(blocks)| && Ranking(blocks)[k] == Item(i, blocks[i])
  {
    RankingIsRanked(blocks);
    assert Items(blocks)[i] in Items(blocks);
    k :| 0 <= k < |Ranking(blocks)| && Ranking(blocks)[k] == Item(i, blocks[i]);
  }

  lemma LaterAndShorter(ranking: seq<Item>, maxBytes: int, a: nat, b: nat)
    requires a < b < |ranking| && forall i, j :: 0 <= i < j < |ranking| ==> ranking[i] != ranking[j]
    requires ranking[a] !in Chosen(ranking, maxBytes) && ranking[b] in Chosen(ranking, maxBytes)
    ensures ranking[b].block.bytes < ranking[a].block.bytes
  {
    ChosenExactlyWhen(ranking, maxBytes, a);
    ChosenExactlyWhen(ranking, maxBytes, b);
    SizeGrows(ranking[..b], maxBytes, a);
    assert ranking[..b][..a] == ranking[..a];
  }
}
