/** The demography of a zone: one range distribution per attribute type,
    created on first access, counting how often each attribute value was
    observed.

    RangeDistribution.java is not part of this model. A distribution is
    modelled here as the sequence of its items, with the behaviour the
    demography relies on: it has an item for a value when some item's range
    matches the value, adding an item appends it, and incrementing a value
    increments the first item whose range matches. */
module Demographies {
  import opened Wrappers
  import opened RangeDistributionItems

  datatype AttributeType = HouseholdSize | FemaleAge | MaleAge | Income | Other(name: string)

  datatype Gender = Male | Female

  predicate ItemMatches(item: ItemValue, key: int) {
    item.lowerBound <= key <= item.upperBound
  }

  /** The sum of the items' amounts. */
  function Total(items: seq<ItemValue>): int {
    if |items| == 0 then 0 else items[0].amount + Total(items[1..])
  }

  /** The items with the first one that matches `key` incremented. */
  function IncrementFirst(items: seq<ItemValue>, key: int): (r: seq<ItemValue>)
    ensures |r| == |items|
    ensures forall i :: 0 <= i < |items| ==> r[i].lowerBound == items[i].lowerBound && r[i].upperBound == items[i].upperBound
    ensures forall i :: 0 <= i < |items| ==> r[i].amount == items[i].amount || r[i].amount == items[i].amount + 1
  {
    if |items| == 0 then []
    else if ItemMatches(items[0], key) then [items[0].(amount := items[0].amount + 1)] + items[1..]
    else [items[0]] + IncrementFirst(items[1..], key)
  }

  datatype RangeDistribution = RangeDistribution(items: seq<ItemValue>) {
    predicate HasItems() { |items| > 0 }

    /** Every item passes the checks of the item constructor, as every item
        built in the source does. */
    predicate Valid() {
      forall i :: 0 <= i < |items| ==> Verify(items[i].lowerBound, items[i].upperBound, items[i].amount).Pass?
    }

    predicate HasItem(key: int) {
      exists i :: 0 <= i < |items| && ItemMatches(items[i], key)
    }

    function AddItem(item: ItemValue): RangeDistribution {
      RangeDistribution(items + [item])
    }

    function Increment(key: int): RangeDistribution {
      RangeDistribution(IncrementFirst(items, key))
    }

    /** The same ranges, every amount 0. */
    function CreateEmpty(): (r: RangeDistribution)
      ensures |r.items| == |items|
      ensures forall i :: 0 <= i < |items| ==> r.items[i] == items[i].(amount := 0)
    {
      RangeDistribution(seq(|items|, i requires 0 <= i < |items| => items[i].(amount := 0)))
    }
  }

  const EmptyDistribution := RangeDistribution([])

  /** Incrementing the first matching item raises the total by one, keeps the
      number of items and every item's range. */
  lemma {:induction false} IncrementFirstCounts(items: seq<ItemValue>, key: int)
    requires exists i :: 0 <= i < |items| && ItemMatches(items[i], key)
    ensures Total(IncrementFirst(items, key)) == Total(items) + 1
    ensures |IncrementFirst(items, key)| == |items|
    ensures forall i :: 0 <= i < |items| ==>
      IncrementFirst(items, key)[i].lowerBound == items[i].lowerBound &&
      IncrementFirst(items, key)[i].upperBound == items[i].upperBound
  {
    if !ItemMatches(items[0], key) {
      var i :| 0 <= i < |items| && ItemMatches(items[i], key);
      assert items[1..][i - 1] == items[i];
      IncrementFirstCounts(items[1..], key);
    }
  }

  lemma {:induction false} TotalAppend(items: seq<ItemValue>, item: ItemValue)
    ensures Total(items + [item]) == Total(items) + item.amount
  {
    if |items| > 0 {
      assert (items + [item])[1..] == items[1..] + [item];
      TotalAppend(items[1..], item);
    }
  }

  /** What `increment(type, value)` does to one distribution: when no item
      covers the value, an empty single-value item is built, whose
      constructor rejects a negative value, and added; then the value is
      incremented. */
  function Record(d: RangeDistribution, value: int): (r: Result<RangeDistribution, ItemError>)
    ensures r.Failure? <==> !d.HasItem(value) && value < 0
    ensures r.Failure? ==> r.error == BoundTooLow(value)
    ensures r.Success? ==> |r.value.items| == if d.HasItem(value) then |d.items| else |d.items| + 1
    ensures r.Success? ==> forall i :: 0 <= i < |d.items| ==>
      r.value.items[i].lowerBound == d.items[i].lowerBound && r.value.items[i].upperBound == d.items[i].upperBound
    ensures r.Success? && !d.HasItem(value) ==>
      r.value.items[|d.items|].lowerBound == value == r.value.items[|d.items|].upperBound
  {
    if d.HasItem(value) then Success(d.Increment(value))
    else match Verify(value, value, 0)
      case Fail(e) => Failure(e)
      case Pass => Success(d.AddItem(ItemValue(value, value, 0)).Increment(value))
  }

  /** After recording a value the distribution covers it, exactly one more
      observation is counted, and at most one item has been added. */
  lemma RecordCounts(d: RangeDistribution, value: int)
    ensures Record(d, value).Success? ==> Record(d, value).value.HasItem(value)
    ensures Record(d, value).Success? ==> Total(Record(d, value).value.items) == Total(d.items) + 1
    ensures Record(d, value).Success? ==>
      |Record(d, value).value.items| == if d.HasItem(value) then |d.items| else |d.items| + 1
  {
    if Record(d, value).Success? {
      var before := if d.HasItem(value) then d else d.AddItem(ItemValue(value, value, 0));
      if !d.HasItem(value) {
        assert ItemMatches(before.items[|d.items|], value);
        TotalAppend(d.items, ItemValue(value, value, 0));
      }
      assert before.HasItem(value);
      IncrementFirstCounts(before.items, value);
      var i :| 0 <= i < |before.items| && ItemMatches(before.items[i], value);
      assert ItemMatches(Record(d, value).value.items[i], value);
    }
  }

  /** No valid item covers a negative value, so on a valid distribution a
      negative value is always rejected; a non-negative one is always
      recorded, and the distribution stays valid. */
  lemma RecordOnValid(d: RangeDistribution, value: int)
    requires d.Valid()
    ensures Record(d, value).Failure? <==> value < 0
    ensures Record(d, value).Success? ==> Record(d, value).value.Valid()
  {
    if value >= 0 {
      var before := if d.HasItem(value) then d else d.AddItem(ItemValue(value, value, 0));
      assert before.Valid();
      var r := Record(d, value).value;
      assert r.items == IncrementFirst(before.items, value);
      forall i | 0 <= i < |r.items|
        ensures Verify(r.items[i].lowerBound, r.items[i].upperBound, r.items[i].amount).Pass?
      {
        assert Verify(before.items[i].lowerBound, before.items[i].upperBound, before.items[i].amount).Pass?;
      }
    }
  }

  /** The distribution a map holds for a type, or a new empty one. */
  function DistributionOf(m: map<AttributeType, RangeDistribution>, t: AttributeType): RangeDistribution {
    if t in m then m[t] else EmptyDistribution
  }

  /** The attribute type under which an age is counted. */
  function AgeAttribute(gender: Gender): (t: AttributeType)
    ensures t == MaleAge <==> gender == Male
    ensures t == FemaleAge <==> gender != Male
  {
    if gender == Male then MaleAge else FemaleAge
  }

  class Demography {
    var rangeDistributions: map<AttributeType, RangeDistribution>

    /** Keeps its own copy of the given distributions. */
    constructor (rangeDistributions: map<AttributeType, RangeDistribution>)
      ensures this.rangeDistributions == rangeDistributions
    {
      this.rangeDistributions := rangeDistributions;
    }

    /** Returns the distribution of a type; a missing one is created empty and
        stored, so a later call finds the same distribution. */
    method GetDistribution(t: AttributeType) returns (d: RangeDistribution)
      modifies this
      ensures rangeDistributions == old(rangeDistributions)[t := DistributionOf(old(rangeDistributions), t)]
      ensures t in old(rangeDistributions) ==> rangeDistributions == old(rangeDistributions)
      ensures t in rangeDistributions && d == rangeDistributions[t]
    {
      if t !in rangeDistributions {
        rangeDistributions := rangeDistributions[t := EmptyDistribution];
      }
      d := rangeDistributions[t];
    }

    /** Some distribution has items. */
    predicate HasData()
      reads this
      ensures HasData() <==> exists t :: t in rangeDistributions && rangeDistributions[t].HasItems()
    {
      exists t | t in rangeDistributions :: rangeDistributions[t].HasItems()
    }

    /** Counts a value under a type. A value no item covers gets a new item,
        whose constructor rejects a negative value: the increment then fails
        with that error, after the type's distribution has been stored. */
    method Increment(t: AttributeType, value: int) returns (r: Outcome<ItemError>)
      modifies this
      ensures var recorded := Record(DistributionOf(old(rangeDistributions), t), value);
        (r.Fail? <==> recorded.Failure?) &&
        (r.Fail? ==> r.error == recorded.error &&
                     rangeDistributions == old(rangeDistributions)[t := DistributionOf(old(rangeDistributions), t)]) &&
        (r.Pass? ==> rangeDistributions == old(rangeDistributions)[t := recorded.value])
      ensures r.Pass? ==> rangeDistributions[t].HasItem(value)
      ensures r.Pass? ==> Total(rangeDistributions[t].items) == Total(DistributionOf(old(rangeDistributions), t).items) + 1
      ensures r.Pass? ==> HasData()
    {
      var distribution := GetDistribution(t);
      if !distribution.HasItem(value) {
        var check := Verify(value, value, 0);
        if check.Fail? {
          return Fail(check.error);
        }
        distribution := distribution.AddItem(ItemValue(value, value, 0));
      }
      distribution := distribution.Increment(value);
      rangeDistributions := rangeDistributions[t := distribution];
      RecordCounts(DistributionOf(old(rangeDistributions), t), value);
      assert rangeDistributions[t].HasItems();
      r := Pass;
    }

    /** Male ages are counted under MaleAge, every other gender under FemaleAge. */
    method IncrementAge(gender: Gender, age: int) returns (r: Outcome<ItemError>)
      modifies this
      ensures var t := AgeAttribute(gender);
        var recorded := Record(DistributionOf(old(rangeDistributions), t), age);
        (r.Fail? <==> recorded.Failure?) &&
        (r.Fail? ==> r.error == recorded.error &&
                     rangeDistributions == old(rangeDistributions)[t := DistributionOf(old(rangeDistributions), t)]) &&
        (r.Pass? ==> rangeDistributions == old(rangeDistributions)[t := recorded.value])
      ensures r.Pass? && gender == Male ==> rangeDistributions[MaleAge].HasItem(age)
      ensures r.Pass? && gender != Male ==> rangeDistributions[FemaleAge].HasItem(age)
    {
      if gender == Male {
        r := Increment(MaleAge, age);
      } else {
        r := Increment(FemaleAge, age);
      }
    }

    /** A new demography with the same attribute types, every distribution
        emptied; this one is left unchanged. */
    method CreateEmpty() returns (r: Demography)
      ensures fresh(r)
      ensures r.rangeDistributions.Keys == rangeDistributions.Keys
      ensures forall t :: t in rangeDistributions ==> r.rangeDistributions[t] == rangeDistributions[t].CreateEmpty()
      ensures r.HasData() <==> HasData()
    {
      var empty: map<AttributeType, RangeDistribution> := map[];
      var remaining := rangeDistributions.Keys;
      while remaining != {}
        invariant remaining <= rangeDistributions.Keys
        invariant empty.Keys == rangeDistributions.Keys - remaining
        invariant forall t :: t in empty ==> empty[t] == rangeDistributions[t].CreateEmpty()
        decreases remaining
      {
        var t :| t in remaining;
        empty := empty[t := rangeDistributions[t].CreateEmpty()];
        remaining := remaining - {t};
      }
      r := new Demography(empty);
      forall t | t in rangeDistributions
        ensures r.rangeDistributions[t].HasItems() == rangeDistributions[t].HasItems()
      {
        CreateEmptyCountsNothing(rangeDistributions[t]);
      }
    }
  }

  /** An emptied distribution has no observations left but has items exactly
      when the original did. */
  lemma {:induction false} CreateEmptyCountsNothing(d: RangeDistribution)
    ensures Total(d.CreateEmpty().items) == 0
    ensures d.CreateEmpty().HasItems() == d.HasItems()
    decreases |d.items|
  {
    if |d.items| > 0 {
      var rest := RangeDistribution(d.items[1..]);
      CreateEmptyCountsNothing(rest);
      assert d.CreateEmpty().items[1..] == rest.CreateEmpty().items;
    }
  }
}
