/** pages/inventory_page.py: the two helpers of the inventory page that
    compute something. The prices shown on the page are taken as whole
    cents, already read from the page. */
module InventoryPage {
  import opened Strings

  const AddToCartPrefix: string := "add-to-cart-"

  /** The `data-test` id of a product's add-to-cart button, as built by
      `add_item_to_cart`: the prefix, then the name lower-cased with every
      space turned into a hyphen, character for character. */
  function AddToCartTestId(itemName: string): (id: string)
    ensures |id| == |AddToCartPrefix| + |itemName|
    ensures id[..|AddToCartPrefix|] == AddToCartPrefix
    ensures forall i :: 0 <= i < |itemName| ==>
      id[|AddToCartPrefix| + i] == if itemName[i] == ' ' then '-' else LowerChar(itemName[i])
  {
    AddToCartPrefix + Replace(Lower(itemName), ' ', '-')
  }

  /** The part after the prefix has no space and no upper-case letter. */
  lemma TestIdSuffixNormalized(itemName: string)
    ensures var id := AddToCartTestId(itemName);
      forall i :: |AddToCartPrefix| <= i < |id| ==> id[i] != ' ' && !IsUpper(id[i])
  {
  }

  /** No adjacent pair rises (the "hilo" order). */
  predicate NonIncreasing(prices: seq<int>) {
    forall i :: 0 <= i < |prices| - 1 ==> !(prices[i] < prices[i + 1])
  }

  /** No adjacent pair falls (the "lohi" order). */
  predicate NonDecreasing(prices: seq<int>) {
    forall i :: 0 <= i < |prices| - 1 ==> !(prices[i] > prices[i + 1])
  }

  /** `are_items_sorted_as_expected`: copies the prices in page order, then
      scans adjacent pairs and fails on the first pair out of the requested
      order. Sort options other than "hilo" and "lohi" check nothing. */
  method AreItemsSortedAsExpected(priceElements: seq<int>, sortBy: string) returns (sorted: bool)
    ensures sortBy == "hilo" ==> (sorted <==> NonIncreasing(priceElements))
    ensures sortBy == "lohi" ==> (sorted <==> NonDecreasing(priceElements))
    ensures sortBy != "hilo" && sortBy != "lohi" ==> sorted
    ensures |priceElements| <= 1 ==> sorted
  {
    // The loop that reads and parses each price element: the elements are
    // already whole cents here, so it copies them in page order.
    var prices: seq<int> := [];
    var k := 0;
    while k < |priceElements|
      invariant 0 <= k <= |priceElements|
      invariant prices == priceElements[..k]
    {
      prices := prices + [priceElements[k]];
      k := k + 1;
    }
    assert prices == priceElements;

    var i := 0;
    while i < |prices| - 1
      invariant 0 <= i && (i < |prices| || i == 0)
      invariant sortBy == "hilo" ==> forall j :: 0 <= j < i ==> !(prices[j] < prices[j + 1])
      invariant sortBy == "lohi" ==> forall j :: 0 <= j < i ==> !(prices[j] > prices[j + 1])
    {
      if sortBy == "hilo" && prices[i] < prices[i + 1] {
        return false;
      } else if sortBy == "lohi" && prices[i] > prices[i + 1] {
        return false;
      }
      i := i + 1;
    }
    return true;
  }

  /** The adjacent-pair check is the same as asking every earlier price to
      be at least (for "hilo") every later one. */
  lemma {:induction false} NonIncreasingIsGlobal(prices: seq<int>)
    ensures NonIncreasing(prices) <==>
      forall i, j :: 0 <= i <= j < |prices| ==> prices[i] >= prices[j]
  {
    if NonIncreasing(prices) {
      forall i, j | 0 <= i <= j < |prices|
        ensures prices[i] >= prices[j]
      {
        var k := i;
        while k < j
          invariant i <= k <= j
          invariant prices[i] >= prices[k]
        {
          k := k + 1;
        }
      }
    }
  }

  /** The adjacent-pair check is the same as asking every earlier price to
      be at most (for "lohi") every later one. */
  lemma {:induction false} NonDecreasingIsGlobal(prices: seq<int>)
    ensures NonDecreasing(prices) <==>
      forall i, j :: 0 <= i <= j < |prices| ==> prices[i] <= prices[j]
  {
    if NonDecreasing(prices) {
      forall i, j | 0 <= i <= j < |prices|
        ensures prices[i] <= prices[j]
      {
        var k := i;
        while k < j
          invariant i <= k <= j
          invariant prices[i] <= prices[k]
        {
          k := k + 1;
        }
      }
    }
  }
}
