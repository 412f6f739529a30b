/**
 * The totals the trip and expense controllers compute over a trip's
 * expenses: the sum of the amounts (`reduce` over `parseFloat(exp.amount)`,
 * here in cents), the expenses of one category, and the categories in the
 * order they first occur. The lemmas show that totals do not depend on the
 * order the rows arrive in, and that splitting by category partitions the
 * expenses and their total.
 */
module Aggregates {
  import opened Models

  /** The left fold `es.reduce((sum, e) => sum + e.amount, 0)`. */
  function SumAmounts(es: seq<Expense>): int
    decreases |es|
  {
    if es == [] then 0 else SumAmounts(es[..|es| - 1]) + es[|es| - 1].amount
  }

  /** The expenses of `es` whose category is `c`, in their order in `es`. */
  function OfCategory(es: seq<Expense>, c: Category): seq<Expense>
    decreases |es|
  {
    if es == [] then []
    else OfCategory(es[..|es| - 1], c) + (if es[|es| - 1].category == c then [es[|es| - 1]] else [])
  }

  /** The category of each expense, in order. */
  function CategoriesOf(es: seq<Expense>): (r: seq<Category>)
    ensures |r| == |es| && forall i :: 0 <= i < |es| ==> r[i] == es[i].category
  {
    seq(|es|, i requires 0 <= i < |es| => es[i].category)
  }

  /** The distinct values of `cs` in the order they are first seen. */
  function FirstSeen(cs: seq<Category>): seq<Category>
    decreases |cs|
  {
    if cs == [] then []
    else
      var seen := FirstSeen(cs[..|cs| - 1]);
      if cs[|cs| - 1] in seen then seen else seen + [cs[|cs| - 1]]
  }

  predicate Distinct(cs: seq<Category>) {
    forall i, j :: 0 <= i < j < |cs| ==> cs[i] != cs[j]
  }

  /** Every expense's category is one of `cs`. */
  predicate Covers(cs: seq<Category>, es: seq<Expense>) {
    forall e :: e in es ==> e.category in cs
  }

  /** The per-category lists of `es`, one after another, in the order of `cs`. */
  function Flatten(es: seq<Expense>, cs: seq<Category>): seq<Expense>
    decreases |cs|
  {
    if cs == [] then [] else OfCategory(es, cs[0]) + Flatten(es, cs[1..])
  }

  /** The per-category totals of `es`, added up in the order of `cs`. */
  function CategorySum(es: seq<Expense>, cs: seq<Category>): int
    decreases |cs|
  {
    if cs == [] then 0 else SumAmounts(OfCategory(es, cs[0])) + CategorySum(es, cs[1..])
  }

  lemma {:induction false} SumAmountsAppend(a: seq<Expense>, b: seq<Expense>)
    ensures SumAmounts(a + b) == SumAmounts(a) + SumAmounts(b)
    decreases |b|
  {
    if b == [] {
      assert a + b == a;
    } else {
      var b' := b[..|b| - 1];
      assert (a + b)[..|a + b| - 1] == a + b';
      SumAmountsAppend(a, b');
    }
  }

  /** The total does not depend on the order of the rows: any permutation has the same sum. */
  lemma {:induction false} SumAmountsPermutation(a: seq<Expense>, b: seq<Expense>)
    requires multiset(a) == multiset(b)
    ensures SumAmounts(a) == SumAmounts(b)
    decreases |a|
  {
    if a == [] {
      assert |b| == |multiset(b)| == 0;
    } else {
      var x := a[|a| - 1];
      var a' := a[..|a| - 1];
      assert a == a' + [x];
      assert x in multiset(b);
      var k :| 0 <= k < |b| && b[k] == x;
      var b' := b[..k] + b[k + 1..];
      assert b == b[..k] + [x] + b[k + 1..];
      assert multiset(b) == multiset(b[..k]) + multiset{x} + multiset(b[k + 1..]);
      assert multiset(a) == multiset(a') + multiset{x};
      assert multiset(b') == multiset(b[..k]) + multiset(b[k + 1..]);
      assert multiset(a') == multiset(a) - multiset{x};
      assert multiset(b') == multiset(b) - multiset{x};
      SumAmountsPermutation(a', b');
      SumAmountsAppend(b[..k] + [x], b[k + 1..]);
      SumAmountsAppend(b[..k], [x]);
      SumAmountsAppend(b[..k], b[k + 1..]);
      assert SumAmounts([x]) == x.amount by { assert [x][..0] == []; }
    }
  }

  /** Adding one expense at the end adds it to its own category's list only. */
  lemma OfCategorySnoc(s: seq<Expense>, x: Expense, c: Category)
    ensures OfCategory(s + [x], c) == OfCategory(s, c) + (if x.category == c then [x] else [])
  {
    assert (s + [x])[..|s + [x]| - 1] == s;
  }

  /** The list of one category holds exactly the expenses of that category. */
  lemma {:induction false} OfCategoryMembers(es: seq<Expense>, c: Category)
    ensures forall e :: e in OfCategory(es, c) <==> e in es && e.category == c
    decreases |es|
  {
    if es != [] {
      var s := es[..|es| - 1];
      assert es == s + [es[|es| - 1]];
      OfCategoryMembers(s, c);
    }
  }

  lemma {:induction false} FlattenSnoc(s: seq<Expense>, x: Expense, cs: seq<Category>)
    requires Distinct(cs)
    ensures multiset(Flatten(s + [x], cs))
         == multiset(Flatten(s, cs)) + (if x.category in cs then multiset{x} else multiset{})
    decreases |cs|
  {
    if cs != [] {
      var c, rest := cs[0], cs[1..];
      assert cs == [c] + rest;
      OfCategorySnoc(s, x, c);
      assert Distinct(rest);
      FlattenSnoc(s, x, rest);
      var here := multiset(OfCategory(s, c));
      var later := multiset(Flatten(s, rest));
      assert multiset(Flatten(s, cs)) == here + later;
      if x.category == c {
        assert x.category !in rest;
        assert multiset(OfCategory(s + [x], c)) == here + multiset{x};
        assert multiset(Flatten(s + [x], rest)) == later;
      } else {
        assert multiset(OfCategory(s + [x], c)) == here;
        assert x.category in cs <==> x.category in rest;
      }
    }
  }

  /**
   * Splitting by a list of distinct categories that covers every expense
   * partitions the expenses: each lands in exactly one group.
   */
  lemma {:induction false} Partition(es: seq<Expense>, cs: seq<Category>)
    requires Distinct(cs) && Covers(cs, es)
    ensures multiset(Flatten(es, cs)) == multiset(es)
    decreases |es|
  {
    if es == [] {
      FlattenEmpty(cs);
    } else {
      var s := es[..|es| - 1];
      var x := es[|es| - 1];
      assert es == s + [x];
      assert Covers(cs, s);
      Partition(s, cs);
      FlattenSnoc(s, x, cs);
    }
  }

  lemma {:induction false} FlattenEmpty(cs: seq<Category>)
    ensures Flatten([], cs) == []
    decreases |cs|
  {
    if cs != [] { FlattenEmpty(cs[1..]); }
  }

  lemma {:induction false} FlattenSum(es: seq<Expense>, cs: seq<Category>)
    ensures SumAmounts(Flatten(es, cs)) == CategorySum(es, cs)
    decreases |cs|
  {
    if cs != [] {
      FlattenSum(es, cs[1..]);
      SumAmountsAppend(OfCategory(es, cs[0]), Flatten(es, cs[1..]));
    }
  }

  /** The per-category totals over distinct, covering categories add up to the total. */
  lemma CategoryTotalsAddUp(es: seq<Expense>, cs: seq<Category>)
    requires Distinct(cs) && Covers(cs, es)
    ensures CategorySum(es, cs) == SumAmounts(es)
  {
    Partition(es, cs);
    SumAmountsPermutation(Flatten(es, cs), es);
    FlattenSum(es, cs);
  }

  /** The six ENUM values are distinct and every expense has one of them. */
  lemma AllCategoriesPartition(es: seq<Expense>)
    ensures Distinct(AllCategories) && Covers(AllCategories, es)
  {
    forall e | e in es ensures e.category in AllCategories {
      match e.category
      case Food => case Transport => case Accommodation =>
      case Activities => case Shopping => case Other =>
    }
  }

  /** `FirstSeen` lists every value of `cs` once. */
  lemma {:induction false} FirstSeenDistinct(cs: seq<Category>)
    ensures Distinct(FirstSeen(cs))
    ensures forall c :: c in FirstSeen(cs) <==> c in cs
    decreases |cs|
  {
    if cs != [] {
      var s := cs[..|cs| - 1];
      FirstSeenDistinct(s);
      assert cs == s + [cs[|cs| - 1]];
    }
  }

  /** Amounts are never negative in a stored expense, so neither is their total. */
  lemma {:induction false} SumAmountsNonNegative(es: seq<Expense>)
    requires forall e :: e in es ==> e.amount >= 0
    ensures SumAmounts(es) >= 0
    decreases |es|
  {
    if es != [] {
      assert es[|es| - 1] in es;
      assert forall e :: e in es[..|es| - 1] ==> e in es;
      SumAmountsNonNegative(es[..|es| - 1]);
    }
  }

  /** Appending one expense adds its amount to the total. */
  lemma SumAmountsSnoc(s: seq<Expense>, x: Expense)
    ensures SumAmounts(s + [x]) == SumAmounts(s) + x.amount
  {
    assert (s + [x])[..|s + [x]| - 1] == s;
  }

  /** The categories of `s + [x]`, first-seen, gain `x`'s category only if it is new. */
  lemma FirstSeenSnoc(s: seq<Expense>, x: Expense)
    ensures FirstSeen(CategoriesOf(s + [x])) ==
      var fs := FirstSeen(CategoriesOf(s));
      if x.category in fs then fs else fs + [x.category]
  {
    var cs := CategoriesOf(s + [x]);
    assert cs[..|cs| - 1] == CategoriesOf(s);
  }

  /** How often each expense occurs in one category's list. */
  lemma {:induction false} OfCategoryCount(es: seq<Expense>, c: Category, x: Expense)
    ensures multiset(OfCategory(es, c))[x] == if x.category == c then multiset(es)[x] else 0
    decreases |es|
  {
    if es != [] {
      var s, y := es[..|es| - 1], es[|es| - 1];
      assert es == s + [y];
      OfCategoryCount(s, c, x);
    }
  }

  /** One category's list does not depend on the order of the rows, up to its own order. */
  lemma OfCategoryPermutation(a: seq<Expense>, b: seq<Expense>, c: Category)
    requires multiset(a) == multiset(b)
    ensures multiset(OfCategory(a, c)) == multiset(OfCategory(b, c))
    ensures SumAmounts(OfCategory(a, c)) == SumAmounts(OfCategory(b, c))
  {
    forall x ensures multiset(OfCategory(a, c))[x] == multiset(OfCategory(b, c))[x] {
      OfCategoryCount(a, c, x);
      OfCategoryCount(b, c, x);
    }
    assert multiset(OfCategory(a, c)) == multiset(OfCategory(b, c));
    SumAmountsPermutation(OfCategory(a, c), OfCategory(b, c));
  }

  // ----- per-category totals (the summary's `expensesByCategory`) -----

  datatype CategoryTotal = CategoryTotal(category: Category, total: int)

  /** One total per category of `cs`, in that order. */
  function TotalsFor(es: seq<Expense>, cs: seq<Category>): (r: seq<CategoryTotal>)
    ensures |r| == |cs|
    ensures forall k :: 0 <= k < |cs| ==> r[k] == CategoryTotal(cs[k], SumAmounts(OfCategory(es, cs[k])))
    decreases |cs|
  {
    if cs == [] then [] else [CategoryTotal(cs[0], SumAmounts(OfCategory(es, cs[0])))] + TotalsFor(es, cs[1..])
  }

  /** The per-category totals of `es`, one per category present, in first-seen order. */
  function Totals(es: seq<Expense>): seq<CategoryTotal> {
    TotalsFor(es, FirstSeen(CategoriesOf(es)))
  }

  function SumTotals(ts: seq<CategoryTotal>): int
    decreases |ts|
  {
    if ts == [] then 0 else ts[0].total + SumTotals(ts[1..])
  }

  lemma {:induction false} SumTotalsFor(es: seq<Expense>, cs: seq<Category>)
    ensures SumTotals(TotalsFor(es, cs)) == CategorySum(es, cs)
    decreases |cs|
  {
    if cs != [] {
      SumTotalsFor(es, cs[1..]);
      assert TotalsFor(es, cs)[1..] == TotalsFor(es, cs[1..]);
    }
  }

  /** The categories of `es` each appear once, exactly those present, and every expense is covered. */
  lemma FirstSeenCategories(es: seq<Expense>)
    ensures Distinct(FirstSeen(CategoriesOf(es))) && Covers(FirstSeen(CategoriesOf(es)), es)
    ensures forall c :: c in FirstSeen(CategoriesOf(es)) <==> exists e :: e in es && e.category == c
  {
    var cs := CategoriesOf(es);
    FirstSeenDistinct(cs);
    forall e | e in es ensures e.category in FirstSeen(cs) {
      var i :| 0 <= i < |es| && es[i] == e;
      assert cs[i] == e.category;
    }
    forall c | c in FirstSeen(cs) ensures exists e :: e in es && e.category == c {
      var i :| 0 <= i < |cs| && cs[i] == c;
      assert es[i] in es && es[i].category == c;
    }
  }

  /** The categories of a list of totals, in order. */
  function TotalCategories(ts: seq<CategoryTotal>): (r: seq<Category>)
    ensures |r| == |ts| && forall k :: 0 <= k < |ts| ==> r[k] == ts[k].category
  {
    seq(|ts|, k requires 0 <= k < |ts| => ts[k].category)
  }

  /** The totals name each category present in `es` once, and no other. */
  lemma TotalsCategories(es: seq<Expense>)
    ensures TotalCategories(Totals(es)) == FirstSeen(CategoriesOf(es))
    ensures Distinct(TotalCategories(Totals(es)))
    ensures forall c :: c in TotalCategories(Totals(es)) <==> c in CategoriesOf(es)
  {
    FirstSeenDistinct(CategoriesOf(es));
  }

  /** The per-category totals add up to the total of all the expenses. */
  lemma TotalsAddUp(es: seq<Expense>)
    ensures SumTotals(Totals(es)) == SumAmounts(es)
  {
    FirstSeenCategories(es);
    SumTotalsFor(es, FirstSeen(CategoriesOf(es)));
    CategoryTotalsAddUp(es, FirstSeen(CategoriesOf(es)));
  }

  // ----- category groups (`getExpensesByCategory`) -----

  datatype CategoryGroup = CategoryGroup(category: Category, total: int, count: nat, expenses: seq<Expense>)

  /** The group of category `c`: its expenses in order, their count and their total. */
  function GroupOf(es: seq<Expense>, c: Category): CategoryGroup {
    var xs := OfCategory(es, c);
    CategoryGroup(c, SumAmounts(xs), |xs|, xs)
  }

  function GroupsFor(es: seq<Expense>, cs: seq<Category>): (r: seq<CategoryGroup>)
    ensures |r| == |cs|
    ensures forall k :: 0 <= k < |cs| ==> r[k] == GroupOf(es, cs[k])
    decreases |cs|
  {
    if cs == [] then [] else [GroupOf(es, cs[0])] + GroupsFor(es, cs[1..])
  }

  /** One group per category present, in first-seen order. */
  function Groups(es: seq<Expense>): seq<CategoryGroup> {
    GroupsFor(es, FirstSeen(CategoriesOf(es)))
  }

  /** The expenses of the groups, one group after another. */
  function Members(gs: seq<CategoryGroup>): seq<Expense>
    decreases |gs|
  {
    if gs == [] then [] else gs[0].expenses + Members(gs[1..])
  }

  function SumGroups(gs: seq<CategoryGroup>): int
    decreases |gs|
  {
    if gs == [] then 0 else gs[0].total + SumGroups(gs[1..])
  }

  lemma {:induction false} MembersFor(es: seq<Expense>, cs: seq<Category>)
    ensures Members(GroupsFor(es, cs)) == Flatten(es, cs)
    ensures SumGroups(GroupsFor(es, cs)) == CategorySum(es, cs)
    decreases |cs|
  {
    if cs != [] {
      MembersFor(es, cs[1..]);
      assert GroupsFor(es, cs)[1..] == GroupsFor(es, cs[1..]);
    }
  }

  /** The groups partition the expenses: each expense is in exactly one group, and their totals add up to the total. */
  lemma GroupsPartition(es: seq<Expense>)
    ensures multiset(Members(Groups(es))) == multiset(es)
    ensures SumGroups(Groups(es)) == SumAmounts(es)
  {
    var cs := FirstSeen(CategoriesOf(es));
    FirstSeenCategories(es);
    MembersFor(es, cs);
    Partition(es, cs);
    CategoryTotalsAddUp(es, cs);
  }

  /**
   * The groups name distinct categories; each count is its list's length,
   * each total its list's sum, and each list holds exactly the expenses of
   * its category.
   */
  lemma GroupsByCategory(es: seq<Expense>)
    ensures forall i, j :: 0 <= i < j < |Groups(es)| ==> Groups(es)[i].category != Groups(es)[j].category
    ensures forall g :: g in Groups(es) ==>
      && g.count == |g.expenses| && g.total == SumAmounts(g.expenses)
      && forall e :: e in g.expenses <==> e in es && e.category == g.category
  {
    FirstSeenDistinct(CategoriesOf(es));
    forall g | g in Groups(es)
      ensures forall e :: e in g.expenses <==> e in es && e.category == g.category
    {
      OfCategoryMembers(es, g.category);
    }
  }
}
