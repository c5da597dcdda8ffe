/** One row of an imported table: attribute names mapped to their textual
    values, built from a list of values and the list of attribute names. */
module Rows {
  import opened Wrappers

  datatype RowError = NoAttribute(key: string, available: set<string>)

  datatype Row = Row(values: map<string, string>) {

    predicate ContainsAttribute(key: string)
      ensures ContainsAttribute(key) <==> key in values.Keys
    {
      key in values
    }

    /** The stored value, or an error naming the missing key and the keys
        that are present. */
    function Get(key: string): (r: Result<string, RowError>)
      ensures r.Success? <==> key in values
      ensures r.Success? ==> r.value == values[key]
      ensures r.Failure? ==> r.error == NoAttribute(key, values.Keys)
    {
      if ContainsAttribute(key) then Success(values[key])
      else Failure(NoAttribute(key, values.Keys))
    }

    /** Rows are equal exactly when their value maps are. */
    predicate Equals(other: Row)
      ensures Equals(other) <==> this == other
    {
      values == other.values
    }
  }

  /** The map that assigning attributes[i] := values[i] for i = 0 .. n-1, in
      that order, produces: a later position overrides an earlier one. */
  function Assigned(attributes: seq<string>, values: seq<string>, n: nat): map<string, string>
    requires n <= |attributes| <= |values|
  {
    if n == 0 then map[] else Assigned(attributes, values, n - 1)[attributes[n - 1] := values[n - 1]]
  }

  /** The value list, padded with empty strings up to length n. */
  function Padded(values: seq<string>, n: nat): (r: seq<string>)
    ensures |r| == if |values| < n then n else |values|
    ensures forall i :: 0 <= i < |r| ==> r[i] == if i < |values| then values[i] else ""
    decreases n - |values|
  {
    if |values| < n then Padded(values + [""], n) else values
  }

  /** Position i is the last position at which its attribute name appears. */
  predicate IsLastOccurrence(attributes: seq<string>, i: nat)
    requires i < |attributes|
  {
    forall j :: i < j < |attributes| ==> attributes[j] != attributes[i]
  }

  lemma {:induction false} AssignedKeys(attributes: seq<string>, values: seq<string>, n: nat)
    requires n <= |attributes| <= |values|
    ensures Assigned(attributes, values, n).Keys == set i | 0 <= i < n :: attributes[i]
  {
    if n > 0 {
      AssignedKeys(attributes, values, n - 1);
      var prev := set i | 0 <= i < n - 1 :: attributes[i];
      var all := set i | 0 <= i < n :: attributes[i];
      assert all == prev + {attributes[n - 1]};
    }
  }

  /** In the assigned map, an attribute maps to the value at the last
      position (among the first n) where it appears. */
  lemma {:induction false} AssignedLastWins(attributes: seq<string>, values: seq<string>, n: nat, i: nat)
    requires n <= |attributes| <= |values|
    requires i < n
    requires forall j :: i < j < n ==> attributes[j] != attributes[i]
    ensures attributes[i] in Assigned(attributes, values, n)
    ensures Assigned(attributes, values, n)[attributes[i]] == values[i]
  {
    if i < n - 1 {
      AssignedLastWins(attributes, values, n - 1, i);
    }
  }

  /** Builds the map position by position, as the source's for-loop does. */
  method DoCreateRow(values: seq<string>, attributes: seq<string>) returns (row: Row)
    requires |attributes| <= |values|
    ensures row.values == Assigned(attributes, values, |attributes|)
  {
    var m: map<string, string> := map[];
    for i := 0 to |attributes|
      invariant m == Assigned(attributes, values, i)
    {
      m := m[attributes[i] := values[i]];
    }
    row := Row(m);
  }

  /** Builds a row; with fewer values than attributes, empty values are
      appended one at a time until the lengths match. Surplus values are
      dropped, and a repeated attribute name keeps its later value. */
  method CreateRow(values: seq<string>, attributes: seq<string>) returns (row: Row)
    ensures row.values == Assigned(attributes, Padded(values, |attributes|), |attributes|)
    ensures row.values.Keys == set i | 0 <= i < |attributes| :: attributes[i]
    ensures forall i :: 0 <= i < |attributes| && IsLastOccurrence(attributes, i) ==>
      row.values[attributes[i]] == if i < |values| then values[i] else ""
    decreases |attributes| - |values|
  {
    if |values| < |attributes| {
      var extended := ExtendValues(values);
      row := CreateRow(extended, attributes);
      assert Padded(extended, |attributes|) == Padded(values, |attributes|);
    } else {
      row := DoCreateRow(values, attributes);
      assert Padded(values, |attributes|) == values;
    }
    var padded := Padded(values, |attributes|);
    AssignedKeys(attributes, padded, |attributes|);
    forall i | 0 <= i < |attributes| && IsLastOccurrence(attributes, i)
      ensures row.values[attributes[i]] == if i < |values| then values[i] else ""
    {
      AssignedLastWins(attributes, padded, |attributes|, i);
    }
  }

  function ExtendValues(values: seq<string>): (extended: seq<string>)
    ensures extended == values + [""]
  {
    values + [""]
  }
}
