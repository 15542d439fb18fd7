/**
 * The per-category size table of analizer.py (`category_sizes`): a dictionary
 * from category label to a running byte total, created with every label at
 * zero, updated in place by `+=` during the walk and read by
 * `print_total_sizes` at the end.
 */
module Aggregator {

  import opened Classifier

  /** The sum of `m`'s values over the keys listed in `keys`. */
  function SumOver(keys: seq<Category>, m: map<Category, nat>): (r: nat)
    requires forall k :: k in keys ==> k in m
  {
    if keys == [] then 0 else m[keys[0]] + SumOver(keys[1..], m)
  }

  /**
   * In a sequence without repetitions the first element does not recur, so
   * `c` is in the sequence iff it is the first element or in the rest, not both.
   */
  lemma HeadNotInTail<T>(keys: seq<T>, c: T)
    requires keys != []
    requires forall i, j :: 0 <= i < j < |keys| ==> keys[i] != keys[j]
    ensures c in keys[1..] ==> keys[0] != c
    ensures c in keys <==> keys[0] == c || c in keys[1..]
  {
    if c in keys[1..] {
      var j :| 0 <= j < |keys[1..]| && keys[1..][j] == c;
      assert keys[0] != keys[j + 1];
    }
    assert keys == [keys[0]] + keys[1..];
  }

  /**
   * Adding `size` to one listed key raises the sum by `size` for each of its
   * occurrences; with distinct keys, by exactly `size`.
   */
  lemma {:induction false} SumOverUpdate(keys: seq<Category>, m: map<Category, nat>, c: Category, size: nat)
    requires forall k :: k in keys ==> k in m
    requires c in m
    requires forall i, j :: 0 <= i < j < |keys| ==> keys[i] != keys[j]
    ensures SumOver(keys, m[c := m[c] + size]) == SumOver(keys, m) + (if c in keys then size else 0)
  {
    if keys != [] {
      SumOverUpdate(keys[1..], m, c, size);
      HeadNotInTail(keys, c);
    }
  }

  class CategorySizes {
    /** The table: category label to accumulated bytes. */
    var sizes: map<Category, nat>

    /** The table always has exactly the eight category labels as keys. */
    ghost predicate Valid()
      reads this
    {
      forall c: Category :: c in sizes
    }

    /** The table as the module declares it: every category at zero. */
    constructor ()
      ensures Valid()
      ensures forall c: Category :: sizes[c] == 0
    {
      CategoriesDistinct();
      sizes := map c | c in Categories :: 0;
    }

    /** The sum of all category totals. */
    function GrandTotal(): (r: nat)
      reads this
      requires Valid()
    {
      SumOver(Categories, sizes)
    }

    /**
     * `category_sizes[category] += size`: every category is a key, so the
     * lookup always succeeds; one total grows by `size` and the other seven
     * keep their values.
     */
    method Add(category: Category, size: nat)
      requires Valid()
      modifies this
      ensures Valid()
      ensures sizes == old(sizes)[category := old(sizes)[category] + size]
      ensures forall c :: c in sizes ==> sizes[c] >= old(sizes)[c]
      ensures GrandTotal() == old(GrandTotal()) + size
    {
      CategoriesDistinct();
      SumOverUpdate(Categories, sizes, category, size);
      sizes := sizes[category := sizes[category] + size];
    }

    /**
     * `print_total_sizes` without the megabyte formatting: one (label, bytes)
     * pair per category, in the table's declaration order.
     */
    method TotalSizes() returns (summary: seq<(string, nat)>)
      requires Valid()
      ensures |summary| == |Categories|
      ensures forall i :: 0 <= i < |summary| ==> summary[i].0 == Label(Categories[i])
      ensures forall i :: 0 <= i < |summary| ==> summary[i].1 == sizes[Categories[i]]
      ensures forall c: Category :: Position(c) < |summary| && summary[Position(c)] == (Label(c), sizes[c])
      ensures forall i, j :: 0 <= i < j < |summary| ==> summary[i].0 != summary[j].0
    {
      summary := [];
      var i := 0;
      while i < |Categories|
        invariant 0 <= i <= |Categories|
        invariant |summary| == i
        invariant forall j :: 0 <= j < i ==> summary[j] == (Label(Categories[j]), sizes[Categories[j]])
      {
        var category := Categories[i];
        summary := summary + [(Label(category), sizes[category])];
        i := i + 1;
      }
      SummaryListsEachCategoryOnce(summary);
    }
  }

  /** Every category appears in the summary exactly once, under its own label, zero totals included. */
  lemma SummaryListsEachCategoryOnce(summary: seq<(string, nat)>)
    requires |summary| == |Categories|
    requires forall i :: 0 <= i < |summary| ==> summary[i].0 == Label(Categories[i])
    ensures forall c: Category :: Position(c) < |summary| && summary[Position(c)].0 == Label(c)
    ensures forall i, j :: 0 <= i < j < |summary| ==> summary[i].0 != summary[j].0
  {
  }
}
