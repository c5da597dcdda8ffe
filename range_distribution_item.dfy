/** One item of a demographic range distribution: an inclusive range of
    keys [lowerBound, upperBound] and a non-negative count of observations
    in it. The bounds are fixed at construction; only the count changes. */
module RangeDistributionItems {
  import opened Wrappers

  datatype ItemError = BoundTooLow(bound: int) | AmountTooLow(amount: int)

  /** The observable content of an item; what `equals` compares. */
  datatype ItemValue = ItemValue(lowerBound: int, upperBound: int, amount: int)

  /** The constructor's checks, in the order it makes them: lower bound,
      upper bound, amount. Zero passes every check. */
  function Verify(lowerBound: int, upperBound: int, amount: int): (r: Outcome<ItemError>)
    ensures r.Pass? <==> lowerBound >= 0 && upperBound >= 0 && amount >= 0
    ensures lowerBound < 0 ==> r == Fail(BoundTooLow(lowerBound))
    ensures lowerBound >= 0 && upperBound < 0 ==> r == Fail(BoundTooLow(upperBound))
    ensures lowerBound >= 0 && upperBound >= 0 && amount < 0 ==> r == Fail(AmountTooLow(amount))
  {
    if 0 > lowerBound then Fail(BoundTooLow(lowerBound))
    else if 0 > upperBound then Fail(BoundTooLow(upperBound))
    else if 0 > amount then Fail(AmountTooLow(amount))
    else Pass
  }

  /** The source's comparison of two items. It is not a total order: it looks
      at the lower bounds in one direction only. */
  function Compare(a: ItemValue, b: ItemValue): int
  {
    if a == b then 0
    else if a.lowerBound < b.lowerBound then -1
    else if a.upperBound < b.upperBound then -1
    else if a.upperBound > b.upperBound then 1
    else a.amount - b.amount
  }

  function Sign(x: int): int { if x < 0 then -1 else if x > 0 then 1 else 0 }

  lemma CompareEqualIsZero(a: ItemValue, b: ItemValue)
    requires a == b
    ensures Compare(a, b) == 0
  {
  }

  lemma CompareSmallerLowerBound(a: ItemValue, b: ItemValue)
    requires a.lowerBound < b.lowerBound
    ensures Compare(a, b) == -1
  {
  }

  /** Among items with the same lower bound, the comparison orders by upper
      bound, then by amount: reports 0 only for equal items and is
      antisymmetric. */
  lemma CompareWithEqualLowerBound(a: ItemValue, b: ItemValue)
    requires a.lowerBound == b.lowerBound
    ensures Compare(a, b) == 0 <==> a == b
    ensures Sign(Compare(a, b)) == -Sign(Compare(b, a))
    ensures a.upperBound != b.upperBound ==> Sign(Compare(a, b)) == Sign(a.upperBound - b.upperBound)
    ensures a.upperBound == b.upperBound ==> Compare(a, b) == a.amount - b.amount
  {
  }

  /** The comparison reports 0 for two different items when the first has
      the larger lower bound and the rest agrees. */
  lemma CompareNotAntisymmetric()
    ensures Compare(ItemValue(3, 5, 2), ItemValue(1, 5, 2)) == 0
    ensures Compare(ItemValue(1, 5, 2), ItemValue(3, 5, 2)) == -1
    ensures ItemValue(3, 5, 2) != ItemValue(1, 5, 2)
  {
  }

  class RangeDistributionItem {
    const lowerBound: int
    const upperBound: int
    var amount: int

    /** Every item satisfies this: the constructor checks it and increment
        keeps it. */
    predicate Valid()
      reads this
    {
      Verify(lowerBound, upperBound, amount).Pass?
    }

    function Value(): ItemValue
      reads this
    {
      ItemValue(lowerBound, upperBound, amount)
    }

    /** The constructor once its checks have passed. */
    constructor Make(lowerBound: int, upperBound: int, amount: int)
      requires Verify(lowerBound, upperBound, amount).Pass?
      ensures Value() == ItemValue(lowerBound, upperBound, amount)
      ensures Valid()
    {
      this.lowerBound := lowerBound;
      this.upperBound := upperBound;
      this.amount := amount;
    }

    /** The three-argument constructor: fails on a negative bound or amount. */
    static method New(lowerBound: int, upperBound: int, amount: int) returns (r: Result<RangeDistributionItem, ItemError>)
      ensures r.Success? <==> Verify(lowerBound, upperBound, amount).Pass?
      ensures r.Failure? ==> r.error == Verify(lowerBound, upperBound, amount).error
      ensures r.Success? ==> fresh(r.value) && r.value.Valid()
      ensures r.Success? ==> r.value.Value() == ItemValue(lowerBound, upperBound, amount)
    {
      var check := Verify(lowerBound, upperBound, amount);
      if check.Fail? {
        return Failure(check.error);
      }
      var item := new RangeDistributionItem.Make(lowerBound, upperBound, amount);
      return Success(item);
    }

    /** The single-bound constructor: a range holding one key. */
    static method Single(bound: int, amount: int) returns (r: Result<RangeDistributionItem, ItemError>)
      ensures r.Success? <==> bound >= 0 && amount >= 0
      ensures r.Success? ==> fresh(r.value) && r.value.Valid()
      ensures r.Success? ==> r.value.lowerBound == r.value.upperBound == bound && r.value.amount == amount
    {
      r := New(bound, bound, amount);
    }

    /** The copy constructor: a new item equal to the original. */
    static method Copy(other: RangeDistributionItem) returns (r: RangeDistributionItem)
      requires other.Valid()
      ensures fresh(r) && r.Valid()
      ensures r.Equals(other)
    {
      r := new RangeDistributionItem.Make(other.lowerBound, other.upperBound, other.amount);
    }

    predicate Matches(key: int)
      reads this
      ensures Matches(key) <==> lowerBound <= key <= upperBound
    {
      lowerBound <= key && upperBound >= key
    }

    method Increment()
      requires Valid()
      modifies this
      ensures amount == old(amount) + 1
      ensures Valid()
    {
      amount := amount + 1;
    }

    /** A new item with the same range and no observations. */
    method CreateEmpty() returns (r: RangeDistributionItem)
      requires Valid()
      ensures fresh(r) && r.Valid()
      ensures r.lowerBound == lowerBound && r.upperBound == upperBound && r.amount == 0
    {
      r := new RangeDistributionItem.Make(lowerBound, upperBound, 0);
    }

    function CompareTo(other: RangeDistributionItem): int
      reads this, other
    {
      Compare(Value(), other.Value())
    }

    /** Equality compares all three fields. */
    predicate Equals(other: RangeDistributionItem)
      reads this, other
      ensures Equals(other) <==>
        lowerBound == other.lowerBound && upperBound == other.upperBound && amount == other.amount
    {
      Value() == other.Value()
    }
  }
}
