/** Merging the extraction results of a document's chunks. */
module Merge {
  import opened Sequences
  import opened Json

  // --- The closed form, one key at a time ---

  /** The non-null values of a key, in the order of the results. */
  function NonNull(results: seq<Fields>, key: string): seq<Value> {
    if results == [] then []
    else NonNull(results[..|results| - 1], key) + ValueIn(results[|results| - 1], key)
  }

  function ValueIn(result: Fields, key: string): seq<Value> {
    if key in result && result[key] != Null then [result[key]] else []
  }

  /** The items of all the arrays among some values, in order. */
  function AllItems(values: seq<Value>): seq<Value> {
    if values == [] then []
    else
      var last := values[|values| - 1];
      AllItems(values[..|values| - 1]) + (if last.Arr? then last.items else [])
  }

  /** The first value wins, except that the arrays of an array property are put together. */
  function Pick(isArray: bool, values: seq<Value>): Value {
    if values == [] then Null
    else if isArray && values[0].Arr? then Arr(AllItems(values))
    else values[0]
  }

  function FoundKeys(results: seq<Fields>): set<string> {
    set i, key | 0 <= i < |results| && key in results[i] && results[i][key] != Null :: key
  }

  function Merged(results: seq<Fields>, props: Fields): Fields {
    map key | key in FoundKeys(results) :: Pick(IsArrayProperty(props, key), NonNull(results, key))
  }

  /** How sure one can be of a field that was found so many times. */
  function Score(count: nat): real {
    if count == 0 then 0.0 else if count > 1 then 1.0 else 0.75
  }

  function Confidence(results: seq<Fields>, props: Fields): map<string, real> {
    map key | key in props :: Score(|NonNull(results, key)|)
  }

  lemma {:induction false} NonNullFound(results: seq<Fields>, key: string)
    ensures NonNull(results, key) != [] <==> key in FoundKeys(results)
    ensures Null !in NonNull(results, key)
  {
    if results != [] {
      var n := |results| - 1;
      var init := results[..n];
      NonNullFound(init, key);
      assert key in FoundKeys(results) <==> key in FoundKeys(init) || ValueIn(results[n], key) != [] by {
        if key in FoundKeys(init) {
          var i :| 0 <= i < n && key in init[i] && init[i][key] != Null;
          assert results[i] == init[i];
        }
        if key in FoundKeys(results) {
          var i :| 0 <= i < |results| && key in results[i] && results[i][key] != Null;
          assert i < n ==> init[i] == results[i];
        }
      }
    }
  }

  lemma {:induction false} NonNullConcat(xs: seq<Fields>, ys: seq<Fields>, key: string)
    ensures NonNull(xs + ys, key) == NonNull(xs, key) + NonNull(ys, key)
  {
    if ys == [] {
      assert xs + ys == xs;
    } else {
      var n := |ys| - 1;
      assert (xs + ys)[..|xs| + n] == xs + ys[..n];
      NonNullConcat(xs, ys[..n], key);
      Assoc(NonNull(xs, key), NonNull(ys[..n], key), ValueIn(ys[n], key));
    }
  }

  lemma {:induction false} AllItemsConcat(a: seq<Value>, b: seq<Value>)
    ensures AllItems(a + b) == AllItems(a) + AllItems(b)
  {
    if b == [] {
      assert a + b == a;
    } else {
      var n := |b| - 1;
      assert (a + b)[..|a| + n] == a + b[..n];
      AllItemsConcat(a, b[..n]);
      Assoc(AllItems(a), AllItems(b[..n]), if b[n].Arr? then b[n].items else []);
    }
  }

  // --- The merge itself, for every order of iterating each result map ---

  /** What the maps hold for one key, given the values seen so far. */
  predicate Entry(merged: Fields, sources: map<string, nat>, props: Fields, key: string, values: seq<Value>) {
    && (key in merged <==> values != []) && (key in sources <==> values != [])
    && (values != [] ==> merged[key] == Pick(IsArrayProperty(props, key), values) && sources[key] == |values|)
  }

  /** The values of a key seen once the earlier results and some keys of the next have been visited. */
  function Seen(earlier: seq<Fields>, result: Fields, visited: set<string>, key: string): seq<Value> {
    NonNull(earlier, key) + (if key in visited then ValueIn(result, key) else [])
  }

  lemma {:induction false} PickMore(isArray: bool, values: seq<Value>, v: Value)
    requires values != [] && Null !in values
    ensures Pick(isArray, values + [v]) ==
      if isArray && values[0].Arr? && v.Arr? then Arr(Pick(isArray, values).items + v.items) else Pick(isArray, values)
  {
    assert (values + [v])[..|values|] == values;
  }

  ghost predicate SameExcept<T>(m: map<string, T>, m': map<string, T>, key: string) {
    forall k :: k != key ==> (k in m' <==> k in m) && (k in m ==> m'[k] == m[k])
  }

  /** The effect of one visit: nothing for null, one more source otherwise, and the value is taken if it
      is the first, appended if both are arrays of an array property, and dropped if not. */
  method Visit(merged: Fields, sources: map<string, nat>, props: Fields, key: string, value: Value,
               ghost values: seq<Value>)
    returns (merged': Fields, sources': map<string, nat>)
    requires Entry(merged, sources, props, key, values) && Null !in values
    ensures Entry(merged', sources', props, key, values + (if value == Null then [] else [value]))
    ensures SameExcept(merged, merged', key) && SameExcept(sources, sources', key)
  {
    merged', sources' := merged, sources;
    if value == Null {
      assert values + [] == values;
      return;
    }
    sources' := sources'[key := (if key in sources then sources[key] else 0) + 1];
    if key !in merged {
      merged' := merged'[key := value];
      assert AllItems([value]) == AllItems([]) + (if value.Arr? then value.items else []);
      assert values + [value] == [value];
      return;
    }
    PickMore(IsArrayProperty(props, key), values, value);
    var existing := merged[key];
    if key in props && TypeOf(props[key]) == "array" {
      if existing.Arr? && value.Arr? {
        merged' := merged'[key := Arr(existing.items + value.items)];
      }
    }
  }

  ghost predicate MergedSoFar(merged: Fields, sources: map<string, nat>, props: Fields, results: seq<Fields>) {
    forall key :: Entry(merged, sources, props, key, NonNull(results, key))
  }

  ghost predicate MergedPartly(merged: Fields, sources: map<string, nat>, props: Fields, earlier: seq<Fields>,
                               result: Fields, visited: set<string>) {
    forall key :: Entry(merged, sources, props, key, Seen(earlier, result, visited, key))
  }

  lemma {:induction false} VisitKeeps(m: Fields, s: map<string, nat>, m': Fields, s': map<string, nat>, props: Fields,
                                      earlier: seq<Fields>, result: Fields, visited: set<string>, key: string)
    requires MergedPartly(m, s, props, earlier, result, visited) && key in result && key !in visited
    requires Entry(m', s', props, key, NonNull(earlier, key) + ValueIn(result, key))
    requires SameExcept(m, m', key) && SameExcept(s, s', key)
    ensures MergedPartly(m', s', props, earlier, result, visited + {key})
  {
    forall k
      ensures Entry(m', s', props, k, Seen(earlier, result, visited + {key}, k))
    {
      assert Entry(m, s, props, k, Seen(earlier, result, visited, k));
      assert k != key ==> Seen(earlier, result, visited + {key}, k) == Seen(earlier, result, visited, k);
    }
  }

  /** The inner loop: the keys of one result, in any order. */
  method MergeOne(merged: Fields, sources: map<string, nat>, props: Fields, result: Fields, ghost earlier: seq<Fields>)
    returns (merged': Fields, sources': map<string, nat>)
    requires MergedSoFar(merged, sources, props, earlier)
    ensures MergedSoFar(merged', sources', props, earlier + [result])
  {
    merged', sources' := merged, sources;
    var rest := result.Keys;
    ghost var visited: set<string> := {};
    forall k
      ensures Entry(merged, sources, props, k, Seen(earlier, result, {}, k))
    {
      assert Seen(earlier, result, {}, k) == NonNull(earlier, k);
    }
    while rest != {}
      invariant rest <= result.Keys && visited == result.Keys - rest
      invariant MergedPartly(merged', sources', props, earlier, result, visited)
      decreases rest
    {
      var key :| key in rest;
      ghost var m, s := merged', sources';
      NonNullFound(earlier, key);
      assert Seen(earlier, result, visited, key) == NonNull(earlier, key);
      assert Entry(merged', sources', props, key, NonNull(earlier, key));
      merged', sources' := Visit(merged', sources', props, key, result[key], NonNull(earlier, key));
      VisitKeeps(m, s, merged', sources', props, earlier, result, visited, key);
      rest := rest - {key};
      visited := visited + {key};
    }
    forall k
      ensures Entry(merged', sources', props, k, NonNull(earlier + [result], k))
    {
      assert (earlier + [result])[..|earlier|] == earlier;
      assert Entry(merged', sources', props, k, Seen(earlier, result, visited, k));
    }
  }

  method ScoreAll(merged: Fields, sources: map<string, nat>, props: Fields, ghost results: seq<Fields>)
    returns (confidence: map<string, real>)
    requires MergedSoFar(merged, sources, props, results)
    ensures confidence == Confidence(results, props)
  {
    confidence := map[];
    var todo := props.Keys;
    while todo != {}
      invariant todo <= props.Keys && confidence.Keys == props.Keys - todo
      invariant forall key :: key in confidence ==> confidence[key] == Score(|NonNull(results, key)|)
      decreases todo
    {
      var key :| key in todo;
      assert Entry(merged, sources, props, key, NonNull(results, key));
      if key !in merged {
        confidence := confidence[key := 0.0];
      } else if sources[key] > 1 {
        confidence := confidence[key := 1.0];
      } else {
        confidence := confidence[key := 0.75];
      }
      todo := todo - {key};
    }
  }

  /** Whatever the order in which each result map is iterated, the merge is the closed form. */
  method MergeResults(results: seq<Fields>, schema: Option<Value>)
    returns (merged: Fields, confidence: map<string, real>)
    ensures merged == Merged(results, Properties(schema))
    ensures confidence == Confidence(results, Properties(schema))
    ensures forall key :: MergedAs(results, schema, key, merged)
    ensures forall key :: ScoredAs(results, schema, key, confidence)
  {
    var props := Properties(schema);
    merged := map[];
    var fieldSources: map<string, nat> := map[];
    for i := 0 to |results|
      invariant MergedSoFar(merged, fieldSources, props, results[..i])
    {
      assert results[..i + 1] == results[..i] + [results[i]];
      merged, fieldSources := MergeOne(merged, fieldSources, props, results[i], results[..i]);
    }
    assert results[..|results|] == results;
    confidence := ScoreAll(merged, fieldSources, props, results);
    MergedSoFarIsMerged(merged, fieldSources, props, results);
    forall key
      ensures MergedAs(results, schema, key, merged) && ScoredAs(results, schema, key, confidence)
    {
      MergeMeans(results, schema, key);
      ConfidenceMeans(results, schema, key);
    }
  }

  lemma {:induction false} MergedSoFarIsMerged(merged: Fields, sources: map<string, nat>, props: Fields,
                                               results: seq<Fields>)
    requires MergedSoFar(merged, sources, props, results)
    ensures merged == Merged(results, props)
  {
    forall key
      ensures key in merged <==> key in Merged(results, props)
      ensures key in merged ==> merged[key] == Merged(results, props)[key]
    {
      NonNullFound(results, key);
      assert Entry(merged, sources, props, key, NonNull(results, key));
    }
  }

  // --- What the merge means, on the results and the schema themselves ---

  predicate HasValue(results: seq<Fields>, key: string, i: nat)
    requires i < |results|
  {
    key in results[i] && results[i][key] != Null
  }

  predicate FirstValueAt(results: seq<Fields>, key: string, i: nat) {
    i < |results| && HasValue(results, key, i) && forall k :: 0 <= k < i ==> !HasValue(results, key, k)
  }

  /** The items of all arrays under a key, in the order of the results. */
  function ItemsUnder(results: seq<Fields>, key: string): seq<Value> {
    if results == [] then []
    else
      var first := results[0];
      (if key in first && first[key].Arr? then first[key].items else []) + ItemsUnder(results[1..], key)
  }

  /** The merged value of a key: none if no result has one; otherwise the first one, except that for a property
      declared an array whose first value is one, it is all the arrays put together. */
  ghost predicate MergedAs(results: seq<Fields>, schema: Option<Value>, key: string, merged: Fields) {
    && (key in merged ==> exists i: nat :: FirstValueAt(results, key, i))
    && (forall i: nat :: FirstValueAt(results, key, i) ==>
          && key in merged
          && merged[key] ==
               if IsDeclaredAs(schema, key, "array") && results[i][key].Arr? then Arr(ItemsUnder(results, key))
               else results[i][key])
  }

  /** The confidence in a declared property: 0 without a value, 0.75 with one, and 1 with more; and nothing
      else has one. */
  ghost predicate ScoredAs(results: seq<Fields>, schema: Option<Value>, key: string, confidence: map<string, real>) {
    && (key in confidence <==> IsDeclared(schema, key))
    && (key in confidence ==>
          && (confidence[key] == 0.0 <==> forall i :: 0 <= i < |results| ==> !HasValue(results, key, i))
          && (confidence[key] == 1.0 <==> HasTwo(results, key))
          && (confidence[key] in {0.0, 0.75, 1.0}))
  }

  lemma {:induction false} NoValue(results: seq<Fields>, key: string)
    requires forall i :: 0 <= i < |results| ==> !HasValue(results, key, i)
    ensures NonNull(results, key) == []
  {
    if results != [] {
      var n := |results| - 1;
      forall i | 0 <= i < n
        ensures !HasValue(results[..n], key, i)
      {
        assert !HasValue(results, key, i);
      }
      NoValue(results[..n], key);
      assert !HasValue(results, key, n);
    }
  }

  lemma {:induction false} ValueFound(results: seq<Fields>, key: string, i: nat)
    requires i < |results| && HasValue(results, key, i)
    ensures NonNull(results, key) != []
    ensures NonNull(results, key) == NonNull(results[..i], key) + [results[i][key]] + NonNull(results[i + 1..], key)
  {
    assert results == results[..i] + [results[i]] + results[i + 1..];
    NonNullConcat(results[..i] + [results[i]], results[i + 1..], key);
    NonNullConcat(results[..i], [results[i]], key);
    assert [results[i]][..0] == [];
    assert NonNull([results[i]], key) == NonNull([], key) + [results[i][key]];
  }

  lemma {:induction false} FirstIsFirst(results: seq<Fields>, key: string, i: nat)
    requires FirstValueAt(results, key, i)
    ensures NonNull(results, key) != [] && NonNull(results, key)[0] == results[i][key]
  {
    ValueFound(results, key, i);
    NothingBefore(results, key, i);
  }

  lemma {:induction false} FirstExists(results: seq<Fields>, key: string) returns (i: nat)
    requires NonNull(results, key) != []
    ensures FirstValueAt(results, key, i)
  {
    var n := |results| - 1;
    if NonNull(results[..n], key) == [] {
      i := n;
      assert ValueIn(results[n], key) != [];
      forall k | 0 <= k < n
        ensures !HasValue(results, key, k)
      {
        if HasValue(results, key, k) {
          assert HasValue(results[..n], key, k);
          ValueFound(results[..n], key, k);
          assert false;
        }
      }
    } else {
      i := FirstExists(results[..n], key);
      assert HasValue(results[..n], key, i);
      forall k | 0 <= k < i
        ensures !HasValue(results, key, k)
      {
        assert !HasValue(results[..n], key, k);
      }
    }
  }

  lemma {:induction false} NonNullFromFront(results: seq<Fields>, key: string)
    requires results != []
    ensures NonNull(results, key) == ValueIn(results[0], key) + NonNull(results[1..], key)
  {
    var first := results[0];
    assert results == [first] + results[1..];
    NonNullConcat([first], results[1..], key);
    assert [first][..0] == [];
    assert NonNull([first], key) == NonNull([], key) + ValueIn(first, key) == ValueIn(first, key);
  }

  lemma {:induction false} ItemsAreAll(results: seq<Fields>, key: string)
    ensures AllItems(NonNull(results, key)) == ItemsUnder(results, key)
  {
    if results != [] {
      NonNullFromFront(results, key);
      AllItemsConcat(ValueIn(results[0], key), NonNull(results[1..], key));
      ItemsAreAll(results[1..], key);
      OneOrNone(ValueIn(results[0], key));
    }
  }

  lemma {:induction false} OneOrNone(values: seq<Value>)
    requires |values| <= 1
    ensures AllItems(values) == if values == [] then [] else if values[0].Arr? then values[0].items else []
  {
    if values != [] {
      assert values[..0] == [];
    }
  }

  lemma {:induction false} MergeMeans(results: seq<Fields>, schema: Option<Value>, key: string)
    ensures MergedAs(results, schema, key, Merged(results, Properties(schema)))
  {
    var props, merged := Properties(schema), Merged(results, Properties(schema));
    NonNullFound(results, key);
    DeclaredExactly(schema, key, "array");
    if key in merged {
      var i := FirstExists(results, key);
    }
    forall i: nat | FirstValueAt(results, key, i)
      ensures key in merged
      ensures merged[key] ==
        if IsDeclaredAs(schema, key, "array") && results[i][key].Arr? then Arr(ItemsUnder(results, key))
        else results[i][key]
    {
      FirstIsFirst(results, key, i);
      ItemsAreAll(results, key);
    }
  }

  ghost predicate HasTwo(results: seq<Fields>, key: string) {
    exists i, j :: 0 <= i < j < |results| && HasValue(results, key, i) && HasValue(results, key, j)
  }

  lemma {:induction false} TwoFound(results: seq<Fields>, key: string, i: nat, j: nat)
    requires i < j < |results| && HasValue(results, key, i) && HasValue(results, key, j)
    ensures |NonNull(results, key)| > 1
  {
    ValueFound(results, key, i);
    assert HasValue(results[i + 1..], key, j - i - 1);
    ValueFound(results[i + 1..], key, j - i - 1);
  }

  lemma {:induction false} TwoExist(results: seq<Fields>, key: string)
    requires |NonNull(results, key)| > 1
    ensures HasTwo(results, key)
  {
    var i := FirstExists(results, key);
    var rest := results[i + 1..];
    NothingBefore(results, key, i);
    ValueFound(results, key, i);
    var j := FirstExists(rest, key);
    assert HasValue(rest, key, j);
    assert HasValue(results, key, i) && HasValue(results, key, i + 1 + j);
  }

  lemma {:induction false} NothingBefore(results: seq<Fields>, key: string, i: nat)
    requires FirstValueAt(results, key, i)
    ensures NonNull(results[..i], key) == []
  {
    forall k | 0 <= k < i
      ensures !HasValue(results[..i], key, k)
    {
      assert !HasValue(results, key, k);
    }
    NoValue(results[..i], key);
  }

  lemma {:induction false} TwoValues(results: seq<Fields>, key: string)
    ensures |NonNull(results, key)| > 1 <==> HasTwo(results, key)
  {
    if |NonNull(results, key)| > 1 {
      TwoExist(results, key);
    }
    if i, j :| 0 <= i < j < |results| && HasValue(results, key, i) && HasValue(results, key, j) {
      TwoFound(results, key, i, j);
    }
  }

  lemma {:induction false} ConfidenceMeans(results: seq<Fields>, schema: Option<Value>, key: string)
    ensures ScoredAs(results, schema, key, Confidence(results, Properties(schema)))
  {
    DeclaredExactly(schema, key, "array");
    TwoValues(results, key);
    if NonNull(results, key) != [] {
      var i := FirstExists(results, key);
      assert HasValue(results, key, i);
    } else {
      forall i | 0 <= i < |results|
        ensures !HasValue(results, key, i)
      {
        if HasValue(results, key, i) {
          ValueFound(results, key, i);
          assert false;
        }
      }
    }
  }

  // --- What merging keeps ---

  /** The one way in which merging in two steps differs: the second part of the results opens an array
      property with something else than an array, so that its later arrays are dropped there, while
      they would be appended to the array found in the first part. */
  predicate DropsItems(xs: seq<Fields>, ys: seq<Fields>, props: Fields, key: string) {
    && IsArrayProperty(props, key)
    && NonNull(xs, key) != [] && NonNull(xs, key)[0].Arr?
    && NonNull(ys, key) != [] && !NonNull(ys, key)[0].Arr? && AllItems(NonNull(ys, key)) != []
  }

  function Picked(isArray: bool, values: seq<Value>): seq<Value> {
    if values == [] then [] else [Pick(isArray, values)]
  }

  lemma {:induction false} PickSplit(isArray: bool, xs: seq<Value>, ys: seq<Value>)
    requires xs + ys != []
    ensures Pick(isArray, xs + ys) == Pick(isArray, Picked(isArray, xs) + Picked(isArray, ys)) <==>
      !(isArray && xs != [] && xs[0].Arr? && ys != [] && !ys[0].Arr? && AllItems(ys) != [])
  {
    AllItemsConcat(xs, ys);
    AllItemsConcat(Picked(isArray, xs), Picked(isArray, ys));
    AllItemsOfPicked(isArray, xs);
    AllItemsOfPicked(isArray, ys);
    if xs == [] {
      assert xs + ys == ys && Picked(isArray, xs) + Picked(isArray, ys) == Picked(isArray, ys);
    }
  }

  lemma {:induction false} AllItemsOfPicked(isArray: bool, values: seq<Value>)
    ensures values == [] ==> AllItems(Picked(isArray, values)) == []
    ensures isArray && values != [] && values[0].Arr? ==> AllItems(Picked(isArray, values)) == AllItems(values)
    ensures values != [] && !values[0].Arr? ==> AllItems(Picked(isArray, values)) == []
  {
    if values != [] {
      var v := Pick(isArray, values);
      assert AllItems([v]) == AllItems([]) + (if v.Arr? then v.items else []);
    }
  }

  lemma {:induction false} NonNullOfMerged(xs: seq<Fields>, props: Fields, key: string)
    ensures NonNull([Merged(xs, props)], key) == Picked(IsArrayProperty(props, key), NonNull(xs, key))
  {
    var m := Merged(xs, props);
    NonNullFound(xs, key);
    assert [m][..0] == [];
    assert NonNull([m], key) == NonNull([], key) + ValueIn(m, key);
    assert NonNull(xs, key) != [] ==> NonNull(xs, key)[0] in NonNull(xs, key);
  }

  lemma {:induction false} MergedPair(xs: seq<Fields>, ys: seq<Fields>, props: Fields, key: string)
    ensures var isArray := IsArrayProperty(props, key);
      NonNull([Merged(xs, props), Merged(ys, props)], key)
        == Picked(isArray, NonNull(xs, key)) + Picked(isArray, NonNull(ys, key))
  {
    var mx, my := Merged(xs, props), Merged(ys, props);
    assert [mx, my] == [mx] + [my];
    NonNullConcat([mx], [my], key);
    NonNullOfMerged(xs, props, key);
    NonNullOfMerged(ys, props, key);
  }

  /** Merging two parts separately and then merging the two merges gives the same fields as merging
      everything at once, exactly when no array property drops items. */
  lemma {:induction false} MergeInTwoSteps(xs: seq<Fields>, ys: seq<Fields>, props: Fields)
    ensures Merged(xs + ys, props) == Merged([Merged(xs, props), Merged(ys, props)], props) <==>
      forall key :: !DropsItems(xs, ys, props, key)
  {
    var whole, twice := Merged(xs + ys, props), Merged([Merged(xs, props), Merged(ys, props)], props);
    forall key
      ensures key in whole <==> key in twice
      ensures key in whole ==> (whole[key] == twice[key] <==> !DropsItems(xs, ys, props, key))
      ensures key !in whole ==> !DropsItems(xs, ys, props, key)
    {
      MergeKeyInTwoSteps(xs, ys, props, key);
    }
    if key :| DropsItems(xs, ys, props, key) {
      assert whole[key] != twice[key];
    }
  }

  lemma {:induction false} MergeKeyInTwoSteps(xs: seq<Fields>, ys: seq<Fields>, props: Fields, key: string)
    ensures var whole, twice := Merged(xs + ys, props), Merged([Merged(xs, props), Merged(ys, props)], props);
      && (key in whole <==> key in twice)
      && (key in whole ==> (whole[key] == twice[key] <==> !DropsItems(xs, ys, props, key)))
      && (key !in whole ==> !DropsItems(xs, ys, props, key))
  {
    var isArray, vx, vy := IsArrayProperty(props, key), NonNull(xs, key), NonNull(ys, key);
    NonNullFound(xs + ys, key);
    NonNullFound([Merged(xs, props), Merged(ys, props)], key);
    NonNullConcat(xs, ys, key);
    MergedPair(xs, ys, props, key);
    if vx + vy != [] {
      PickSplit(isArray, vx, vy);
    }
  }

  /** Adding results never removes a field, never lowers a confidence, adds up the occurrences of the
      key, keeps the value of a field that is no array, and only appends to one that is. */
  lemma {:induction false} MergeGrows(xs: seq<Fields>, ys: seq<Fields>, props: Fields, key: string)
    ensures |NonNull(xs + ys, key)| == |NonNull(xs, key)| + |NonNull(ys, key)|
    ensures key in props ==> Confidence(xs, props)[key] <= Confidence(xs + ys, props)[key]
    ensures key in Merged(xs, props) ==> key in Merged(xs + ys, props)
    ensures key in Merged(xs, props) ==>
      var before, after := Merged(xs, props)[key], Merged(xs + ys, props)[key];
      if IsArrayProperty(props, key) && before.Arr? then
        after == Arr(before.items + AllItems(NonNull(ys, key)))
      else after == before
  {
    NonNullFound(xs, key);
    NonNullFound(xs + ys, key);
    NonNullConcat(xs, ys, key);
    AllItemsConcat(NonNull(xs, key), NonNull(ys, key));
  }

  /** If every array property holds only null or arrays, merging in two steps is always the same. */
  lemma {:induction false} CleanArraysMerge(xs: seq<Fields>, ys: seq<Fields>, props: Fields)
    requires forall key, i :: IsArrayProperty(props, key) && 0 <= i < |ys| && key in ys[i] ==>
      ys[i][key] == Null || ys[i][key].Arr?
    ensures Merged(xs + ys, props) == Merged([Merged(xs, props), Merged(ys, props)], props)
  {
    forall key
      ensures !DropsItems(xs, ys, props, key)
    {
      if IsArrayProperty(props, key) && NonNull(ys, key) != [] {
        FirstNonNull(ys, key);
      }
    }
    MergeInTwoSteps(xs, ys, props);
  }

  lemma {:induction false} FirstNonNull(results: seq<Fields>, key: string)
    requires NonNull(results, key) != []
    ensures exists i :: 0 <= i < |results| && ValueIn(results[i], key) == [NonNull(results, key)[0]]
  {
    var n := |results| - 1;
    var init := results[..n];
    if NonNull(init, key) == [] {
      assert ValueIn(results[n], key) == [NonNull(results, key)[0]];
    } else {
      FirstNonNull(init, key);
      var i :| 0 <= i < |init| && ValueIn(init[i], key) == [NonNull(init, key)[0]];
      assert ValueIn(results[i], key) == [NonNull(results, key)[0]];
    }
  }

  /** A property has confidence zero exactly when the merge does not hold it, and no merged field is
      null. */
  lemma {:induction false} ZeroMeansMissing(results: seq<Fields>, props: Fields, key: string)
    ensures key in props ==> (Confidence(results, props)[key] == 0.0 <==> key !in Merged(results, props))
    ensures key in Merged(results, props) ==> Merged(results, props)[key] != Null
  {
    NonNullFound(results, key);
    assert NonNull(results, key) != [] ==> NonNull(results, key)[0] in NonNull(results, key);
  }
}
