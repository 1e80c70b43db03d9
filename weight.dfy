/** Weight aggregation: `calculateWeight` and the 0.1 kg floor both of its
    callers apply. Weights are exact reals; the floating-point rounding of the
    JavaScript sum is not modelled. */
module Weight {
  import opened Wrappers
  import opened Shopify

  /** The carrier's minimum weight, in kilograms. */
  const MinimumKg: real := 0.1

  /** One line's contribution: grams times quantity, in kilograms. */
  function ItemKg(item: LineItem): real {
    (item.grams * item.quantity) as real / 1000.0
  }

  /** The reference sum Σ grams·quantity / 1000 over the line items. */
  function TotalKg(items: seq<LineItem>): real
    decreases |items|
  {
    if |items| == 0 then 0.0 else ItemKg(items[0]) + TotalKg(items[1..])
  }

  /** The `reduce` callback run over `items`, starting from `total`. */
  function Accumulate(items: seq<LineItem>, total: real): real
    decreases |items|
  {
    if |items| == 0 then total else Accumulate(items[1..], total + ItemKg(items[0]))
  }

  lemma {:induction false} AccumulateAdds(items: seq<LineItem>, total: real)
    ensures Accumulate(items, total) == total + TotalKg(items)
    decreases |items|
  {
    if |items| > 0 {
      AccumulateAdds(items[1..], total + ItemKg(items[0]));
    }
  }

  /** `calculateWeight(lineItems)`: the `reduce` from 0 equals the sum of the
      lines' weights, and is 0 for no lines. */
  function CalculateWeight(items: seq<LineItem>): (w: real)
    ensures w == TotalKg(items)
    ensures items == [] ==> w == 0.0
  {
    AccumulateAdds(items, 0.0);
    Accumulate(items, 0.0)
  }

  /** `Math.max(0.1, calculateWeight(items))`, the weight both shipment
      builders send: never below 0.1 kg, and the plain sum whenever the sum
      reaches 0.1 kg. */
  function ShippedWeight(items: seq<LineItem>): (w: real)
    ensures w >= MinimumKg
    ensures TotalKg(items) >= MinimumKg ==> w == TotalKg(items)
    ensures TotalKg(items) < MinimumKg ==> w == MinimumKg
  {
    var sum := CalculateWeight(items);
    if MinimumKg >= sum then MinimumKg else sum
  }

  /** The sum splits over concatenation. */
  lemma {:induction false} TotalKgAppend(a: seq<LineItem>, b: seq<LineItem>)
    ensures TotalKg(a + b) == TotalKg(a) + TotalKg(b)
    decreases |a|
  {
    if |a| > 0 {
      assert (a + b)[0] == a[0] && (a + b)[1..] == a[1..] + b;
      TotalKgAppend(a[1..], b);
    } else {
      assert a + b == b;
    }
  }

  /** Line items with no negative grams or quantities never weigh less than
      nothing. */
  lemma {:induction false} TotalKgNonNegative(items: seq<LineItem>)
    requires forall i :: 0 <= i < |items| ==> items[i].grams >= 0 && items[i].quantity >= 0
    ensures TotalKg(items) >= 0.0
    decreases |items|
  {
    if |items| > 0 {
      var g, q := items[0].grams, items[0].quantity;
      assert g * q >= 0;
      TotalKgNonNegative(items[1..]);
    }
  }

  /** One 500 g item weighs 0.5 kg; no items ship at the 0.1 kg floor. */
  lemma WeightExamples()
    ensures ShippedWeight([LineItem(None, 1, None, 500, None)]) == 0.5
    ensures ShippedWeight([]) == MinimumKg
  {
    var items := [LineItem(None, 1, None, 500, None)];
    assert items[1..] == [];
    assert TotalKg(items) == 0.5;
  }
}
