/** The per-category fold both monthly views run over the expense-type
    records:

      records.filter(type === 'expense')
             .reduce((acc, exp) => { acc[category] = (acc[category] || 0) + amount })

    An object used as a map enumerates its keys in insertion order, so the
    result is modelled as a list of (category, amount) pairs in the order
    each category was first met. */
module Tally {
  import opened Records
  import opened Seqs

  datatype CategoryTotal = CategoryTotal(category: string, amount: int)

  function Names(r: seq<CategoryTotal>): (ns: seq<string>)
    ensures |ns| == |r|
    ensures forall i :: 0 <= i < |r| ==> ns[i] == r[i].category
  {
    seq(|r|, i requires 0 <= i < |r| => r[i].category)
  }

  function TotalAmount(t: CategoryTotal): int
  {
    t.amount
  }

  /** `acc[category] = (acc[category] || 0) + amount`. */
  function AddTo(acc: seq<CategoryTotal>, category: string, amount: int): seq<CategoryTotal>
  {
    var i := IndexOf(Names(acc), category);
    if i < |acc| then acc[i := CategoryTotal(category, acc[i].amount + amount)]
    else acc + [CategoryTotal(category, amount)]
  }

  /** The fold over `records`, left to right. */
  function Totals(records: seq<Expense>): seq<CategoryTotal>
  {
    if records == [] then []
    else
      var last := records[|records| - 1];
      AddTo(Totals(records[..|records| - 1]), last.category, last.amount)
  }

  /** The amount accumulated under `category`, or 0 when it has no entry. */
  function ValueOf(r: seq<CategoryTotal>, category: string): int
  {
    var i := IndexOf(Names(r), category);
    if i < |r| then r[i].amount else 0
  }

  /** The records of one category. */
  function InCategory(category: string): Expense -> bool
  {
    (e: Expense) => e.category == category
  }

  /** The categories of `records` in first-occurrence order, without
      repetition: an independent account of the fold's key order. */
  function FirstOccurrences(records: seq<Expense>): seq<string>
  {
    if records == [] then []
    else
      var init := FirstOccurrences(records[..|records| - 1]);
      var c := records[|records| - 1].category;
      if c in init then init else init + [c]
  }

  /** One fold step keeps the keys distinct, appending the category when it
      is new. */
  lemma AddToNames(acc: seq<CategoryTotal>, category: string, amount: int)
    requires Distinct(Names(acc))
    ensures Names(AddTo(acc, category, amount))
         == if category in Names(acc) then Names(acc) else Names(acc) + [category]
    ensures Distinct(Names(AddTo(acc, category, amount)))
  {
    var r := AddTo(acc, category, amount);
    if IndexOf(Names(acc), category) < |acc| {
      assert Names(r) == Names(acc);
    } else {
      assert Names(r) == Names(acc) + [category];
    }
  }

  /** One fold step raises the entries' total by the amount. */
  lemma AddToSum(acc: seq<CategoryTotal>, category: string, amount: int)
    ensures SumOf(AddTo(acc, category, amount), TotalAmount) == SumOf(acc, TotalAmount) + amount
  {
    var i := IndexOf(Names(acc), category);
    if i < |acc| {
      SumOfUpdate(acc, i, CategoryTotal(category, acc[i].amount + amount), TotalAmount);
    } else {
      var t := CategoryTotal(category, amount);
      SumOfAppend(acc, [t], TotalAmount);
      assert [t][..0] == [];
    }
  }

  /** One fold step adds the amount to its category's value and to no
      other. */
  lemma AddToValue(acc: seq<CategoryTotal>, category: string, amount: int, k: string)
    ensures ValueOf(AddTo(acc, category, amount), k)
         == ValueOf(acc, k) + (if k == category then amount else 0)
  {
    var ns := Names(acc);
    var r := AddTo(acc, category, amount);
    if IndexOf(ns, category) < |acc| {
      assert Names(r) == ns;
    } else {
      assert Names(r) == ns + [category];
      IndexOfPrefix(ns, [category], k);
    }
  }

  lemma {:induction false} IndexOfPrefix(xs: seq<string>, ys: seq<string>, x: string)
    ensures IndexOf(xs + ys, x) == if x in xs then IndexOf(xs, x) else |xs| + IndexOf(ys, x)
  {
    if xs != [] {
      assert (xs + ys)[1..] == xs[1..] + ys;
      if xs[0] != x {
        IndexOfPrefix(xs[1..], ys, x);
      }
    } else {
      assert xs + ys == ys;
    }
  }

  /** The keys of the fold are the categories of the records, each once, in
      first-occurrence order. */
  lemma {:induction false} TotalsNames(records: seq<Expense>)
    ensures Names(Totals(records)) == FirstOccurrences(records)
    ensures Distinct(Names(Totals(records)))
  {
    if records != [] {
      var init := records[..|records| - 1];
      var last := records[|records| - 1];
      TotalsNames(init);
      AddToNames(Totals(init), last.category, last.amount);
    }
  }

  /** The entries add up to the total of all the records folded. */
  lemma {:induction false} TotalsSum(records: seq<Expense>)
    ensures SumOf(Totals(records), TotalAmount) == SumOf(records, Amount)
  {
    if records != [] {
      var init := records[..|records| - 1];
      var last := records[|records| - 1];
      TotalsSum(init);
      AddToSum(Totals(init), last.category, last.amount);
    }
  }

  /** Each category's entry is the sum over that category's records. */
  lemma {:induction false} TotalsValue(records: seq<Expense>, c: string)
    ensures ValueOf(Totals(records), c) == SumOf(Filter(records, InCategory(c)), Amount)
  {
    if records != [] {
      var init := records[..|records| - 1];
      var last := records[|records| - 1];
      TotalsValue(init, c);
      AddToValue(Totals(init), last.category, last.amount, c);
      var f := Filter(init, InCategory(c));
      if last.category == c {
        assert Filter(records, InCategory(c)) == f + [last];
        assert (f + [last])[..|f|] == f;
      } else {
        assert Filter(records, InCategory(c)) == f;
      }
    }
  }

  /** A category has an entry exactly when some record carries it. */
  lemma {:induction false} FirstOccurrencesMembers(records: seq<Expense>, c: string)
    ensures c in FirstOccurrences(records) <==> exists i :: 0 <= i < |records| && records[i].category == c
  {
    if records != [] {
      var init := records[..|records| - 1];
      FirstOccurrencesMembers(init, c);
      if exists i :: 0 <= i < |init| && init[i].category == c {
        var i :| 0 <= i < |init| && init[i].category == c;
        assert records[i].category == c;
      }
      if exists i :: 0 <= i < |records| && records[i].category == c {
        var i :| 0 <= i < |records| && records[i].category == c;
        if i < |init| {
          assert init[i].category == c;
        }
      }
    }
  }

  /** With positive amounts every entry is positive. */
  lemma {:induction false} TotalsPositive(records: seq<Expense>)
    requires forall i :: 0 <= i < |records| ==> records[i].amount > 0
    ensures forall i :: 0 <= i < |Totals(records)| ==> Totals(records)[i].amount > 0
  {
    if records != [] {
      var init := records[..|records| - 1];
      TotalsPositive(init);
    }
  }

  /** An entry of a list of positive amounts never exceeds their sum. */
  lemma {:induction false} EntryAtMostSum(r: seq<CategoryTotal>, k: nat)
    requires k < |r|
    requires forall i :: 0 <= i < |r| ==> r[i].amount > 0
    ensures 0 < r[k].amount <= SumOf(r, TotalAmount)
  {
    var n := |r| - 1;
    if k < n {
      EntryAtMostSum(r[..n], k);
    } else {
      NonNegativeSum(r[..n]);
    }
  }

  lemma {:induction false} NonNegativeSum(r: seq<CategoryTotal>)
    requires forall i :: 0 <= i < |r| ==> r[i].amount > 0
    ensures SumOf(r, TotalAmount) >= 0
  {
    if r != [] {
      NonNegativeSum(r[..|r| - 1]);
    }
  }

  function Category(t: CategoryTotal): string
  {
    t.category
  }

  /** Reordering the entries keeps their names distinct. */
  lemma PermutationKeepsDistinct(a: seq<CategoryTotal>, b: seq<CategoryTotal>)
    requires multiset(a) == multiset(b)
    requires Distinct(Names(b))
    ensures Distinct(Names(a))
  {
    assert DistinctBy(b, Category) by {
      forall i, j | 0 <= i < j < |b|
        ensures Category(b[i]) != Category(b[j])
      {
        assert Names(b)[i] != Names(b)[j];
      }
    }
    PermutationKeepsDistinctBy(a, b, Category);
    forall i, j | 0 <= i < j < |a|
      ensures Names(a)[i] != Names(a)[j]
    {
      assert Category(a[i]) != Category(a[j]);
    }
  }

  /** Reordering the entries keeps the same names. */
  lemma PermutationKeepsNames(a: seq<CategoryTotal>, b: seq<CategoryTotal>, c: string)
    requires multiset(a) == multiset(b)
    ensures c in Names(a) <==> c in Names(b)
  {
    if c in Names(a) {
      var k :| 0 <= k < |a| && Names(a)[k] == c;
      assert a[k] in multiset(b);
      var j :| 0 <= j < |b| && b[j] == a[k];
      assert Names(b)[j] == c;
    }
    if c in Names(b) {
      var k :| 0 <= k < |b| && Names(b)[k] == c;
      assert b[k] in multiset(a);
      var j :| 0 <= j < |a| && a[j] == b[k];
      assert Names(a)[j] == c;
    }
  }

  /** A category has an entry exactly when some record carries it. */
  lemma TotalsHasCategory(records: seq<Expense>, c: string)
    ensures c in Names(Totals(records)) <==> exists i :: 0 <= i < |records| && records[i].category == c
  {
    TotalsNames(records);
    FirstOccurrencesMembers(records, c);
  }
}
