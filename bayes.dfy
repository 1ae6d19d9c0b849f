/** bayes/calculate.go: counting probabilities over categorised data. */
module Bayes {

  /** bayes.Category. */
  type Category = int

  /** bayes.Datum: a value and the set of its categories (the keys of the Go map). */
  datatype Datum<V> = Datum(Value: V, Categories: set<Category>)

  /** NewDatum: the category set holds every listed category, duplicates collapsed. */
  method NewDatum<V>(v: V, categories: seq<Category>) returns (d: Datum<V>)
    ensures d.Value == v
    ensures d.Categories == set c | c in categories
  {
    var cats: set<Category> := {};
    for i := 0 to |categories|
      invariant cats == set c | c in categories[..i]
    {
      assert categories[..i + 1] == categories[..i] + [categories[i]];
      cats := cats + {categories[i]};
    }
    assert categories[..|categories|] == categories;
    d := Datum(v, cats);
  }

  /** matches: a scan that fails on the first listed category the datum lacks. */
  function Matches<V>(dm: Datum<V>, categories: seq<Category>): (r: bool)
    ensures r <==> forall i :: 0 <= i < |categories| ==> categories[i] in dm.Categories
    ensures categories == [] ==> r
  {
    if categories == [] then true
    else categories[0] in dm.Categories && Matches(dm, categories[1..])
  }

  /** The data kept by filter: the matching data, in their original order. */
  function Filtered<V>(d: seq<Datum<V>>, categories: seq<Category>): (r: seq<Datum<V>>)
    ensures |r| <= |d|
  {
    if d == [] then []
    else
      var last := d[|d| - 1];
      Filtered(d[..|d| - 1], categories) + (if Matches(last, categories) then [last] else [])
  }

  /** filter: appends each matching datum in turn. */
  method Filter<V>(d: seq<Datum<V>>, categories: seq<Category>) returns (filtered: seq<Datum<V>>)
    ensures filtered == Filtered(d, categories)
  {
    filtered := [];
    for i := 0 to |d|
      invariant filtered == Filtered(d[..i], categories)
    {
      assert d[..i + 1][..i] == d[..i];
      if Matches(d[i], categories) {
        filtered := filtered + [d[i]];
      }
    }
    assert d[..|d|] == d;
  }

  /** Filtering distributes over concatenation, so it keeps the relative order of the data. */
  lemma {:induction false} FilteredAppend<V>(d1: seq<Datum<V>>, d2: seq<Datum<V>>, categories: seq<Category>)
    ensures Filtered(d1 + d2, categories) == Filtered(d1, categories) + Filtered(d2, categories)
    decreases |d2|
  {
    if d2 == [] {
      assert d1 + d2 == d1;
    } else {
      var init := d2[..|d2| - 1];
      assert (d1 + d2)[..|d1 + d2| - 1] == d1 + init;
      FilteredAppend(d1, init, categories);
    }
  }

  /** filter keeps exactly the matching data: every kept datum matches and comes from d,
      and every matching datum of d is kept. */
  lemma {:induction false} FilteredExactly<V>(d: seq<Datum<V>>, categories: seq<Category>)
    ensures forall x :: x in Filtered(d, categories) <==> x in d && Matches(x, categories)
  {
    if d != [] {
      var init := d[..|d| - 1];
      FilteredExactly(init, categories);
      assert d == init + [d[|d| - 1]];
      forall x
        ensures x in Filtered(d, categories) <==> x in d && Matches(x, categories)
      {
        assert x in d <==> x in init || x == d[|d| - 1];
      }
    }
  }

  /** Filtering by the given categories and then by category equals filtering by given + [category]. */
  lemma {:induction false} FilteredTwice<V>(d: seq<Datum<V>>, given: seq<Category>, category: Category)
    ensures Filtered(Filtered(d, given), [category]) == Filtered(d, given + [category])
  {
    if d != [] {
      var init := d[..|d| - 1];
      var last := d[|d| - 1];
      FilteredTwice(init, given, category);
      var tail := if Matches(last, given) then [last] else [];
      FilteredAppend(Filtered(init, given), tail, [category]);
      if Matches(last, given) {
        assert Filtered(tail, [category]) == Filtered([], [category]) + (if Matches(last, [category]) then [last] else []);
      }
      assert Matches(last, given + [category]) <==> Matches(last, given) && Matches(last, [category]) by {
        assert forall i :: 0 <= i < |given| ==> (given + [category])[i] == given[i];
        assert (given + [category])[|given|] == category;
      }
    }
  }

  /** Data.Probability: 0 when nothing has all the given categories, otherwise the share of
      the filtered data that is also in category. */
  function Probability<V>(d: seq<Datum<V>>, category: Category, given: seq<Category>): (p: real)
    ensures 0.0 <= p <= 1.0
    ensures |Filtered(d, given)| == 0 ==> p == 0.0
    ensures |Filtered(d, given)| > 0 ==>
      p == |Filtered(d, given + [category])| as real / |Filtered(d, given)| as real
  {
    var filtered := Filtered(d, given);
    if |filtered| == 0 then 0.0
    else
      var matches := Filtered(filtered, [category]);
      FilteredTwice(d, given, category);
      Fraction(|matches|, |filtered|)
  }

  /** A count over a non-zero count of which it is a part lies in [0, 1]. */
  function Fraction(part: nat, whole: nat): (f: real)
    requires part <= whole && whole > 0
    ensures 0.0 <= f <= 1.0 && f == part as real / whole as real
  {
    part as real / whole as real
  }

  /** With no categories everything matches, so filter keeps all data. */
  lemma {:induction false} FilteredByNothing<V>(d: seq<Datum<V>>)
    ensures Filtered(d, []) == d
  {
    if d != [] {
      FilteredByNothing(d[..|d| - 1]);
    }
  }

  /** With no given categories the probability is the fraction of all data in category. */
  lemma ProbabilityWithoutGiven<V>(d: seq<Datum<V>>, category: Category)
    ensures |d| == 0 ==> Probability(d, category, []) == 0.0
    ensures |d| > 0 ==> Probability(d, category, []) == |Filtered(d, [category])| as real / |d| as real
  {
    FilteredByNothing(d);
    assert [] + [category] == [category];
  }
}
