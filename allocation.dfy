/** The token allocation dataset shown by the tokenomics chart, and the
    total of its weights (the `reduce` over the dataset). */
module Allocation {

  /** One named, weighted entry of the allocation (`name` is the source's
      `label`, a reserved word in Dafny); `color` is the CSS
      colour string the slice and its legend dot are filled with. */
  datatype Item = Item(name: string, value: real, color: string)

  /** The constant dataset of the page, in display order. */
  const TokenomicsData: seq<Item> := [
    Item("Pioneer Airdrop", 12.0, "#34ff8a"),
    Item("Ecosystem Rewards", 25.0, "#1bc86a"),
    Item("Platform Utility Reserve", 18.0, "#42e5ff"),
    Item("Treasury & Liquidity", 15.0, "#5b8dff"),
    Item("Development Fund", 10.0, "#b07bff"),
    Item("Strategic Partners", 8.0, "#ff7ad9"),
    Item("Governance Pool", 7.0, "#ffd166"),
    Item("Emergency Reserve", 5.0, "#9cff7b")
  ]

  /** The left fold `items.reduce((sum, item) => sum + item.value, 0)`:
      the last item is added to the sum of the ones before it. */
  function Total(items: seq<Item>): real
  {
    if items == [] then 0.0 else Total(items[..|items| - 1]) + items[|items| - 1].value
  }

  predicate NonNegative(items: seq<Item>)
  {
    forall i :: 0 <= i < |items| ==> items[i].value >= 0.0
  }

  /** Extending a prefix by one item adds that item's weight. */
  lemma TotalOfPrefixStep(items: seq<Item>, i: nat)
    requires i < |items|
    ensures Total(items[..i + 1]) == Total(items[..i]) + items[i].value
  {
    assert items[..i + 1][..i] == items[..i];
  }

  /** With non-negative weights every prefix weighs between zero and the
      whole dataset, and a longer prefix never weighs less. */
  lemma TotalOfPrefixBounds(items: seq<Item>, i: nat, j: nat)
    requires NonNegative(items)
    requires i <= j <= |items|
    ensures 0.0 <= Total(items[..i]) <= Total(items[..j]) <= Total(items)
  {
    TotalOfPrefixNonNegative(items, i);
    TotalOfPrefixMonotone(items, i, j);
    TotalOfPrefixMonotone(items, j, |items|);
    assert items[..|items|] == items;
  }

  lemma {:induction false} TotalOfPrefixNonNegative(items: seq<Item>, i: nat)
    requires NonNegative(items)
    requires i <= |items|
    ensures 0.0 <= Total(items[..i])
  {
    if i > 0 {
      TotalOfPrefixNonNegative(items, i - 1);
      TotalOfPrefixStep(items, i - 1);
    }
  }

  lemma {:induction false} TotalOfPrefixMonotone(items: seq<Item>, i: nat, j: nat)
    requires NonNegative(items)
    requires i <= j <= |items|
    ensures Total(items[..i]) <= Total(items[..j])
  {
    if i < j {
      TotalOfPrefixMonotone(items, i, j - 1);
      TotalOfPrefixStep(items, j - 1);
    }
  }

  /** The page's weights are already percentages: they add up to 100. */
  lemma TokenomicsTotalIsHundred()
    ensures Total(TokenomicsData) == 100.0
  {
    var d := TokenomicsData;
    assert Total(d[..0]) == 0.0;
    TotalOfPrefixStep(d, 0);
    TotalOfPrefixStep(d, 1);
    TotalOfPrefixStep(d, 2);
    TotalOfPrefixStep(d, 3);
    TotalOfPrefixStep(d, 4);
    TotalOfPrefixStep(d, 5);
    TotalOfPrefixStep(d, 6);
    TotalOfPrefixStep(d, 7);
    assert d[..8] == d;
  }

  /** The chart prints an item's raw `value` followed by "%"; because the
      weights total 100, that number is exactly the item's share of the
      total supply in percent. */
  lemma DisplayedValueIsShare(i: nat)
    requires i < |TokenomicsData|
    ensures Total(TokenomicsData) != 0.0
    ensures TokenomicsData[i].value == TokenomicsData[i].value / Total(TokenomicsData) * 100.0
  {
    TokenomicsTotalIsHundred();
  }
}
