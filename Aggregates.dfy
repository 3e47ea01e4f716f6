/**
 * The computed properties of the data manager: every figure the dashboard
 * shows is derived afresh from the stored list (and, for the date-based
 * views, from the current instant). Inactive records are kept in the list
 * but take no part in any of them.
 */
module Aggregates {
  import opened Wrappers
  import opened Models
  import opened Seqs

  /** `activeSubscriptions`: the records with `isActive` set, in list order. */
  function ActiveSubscriptions(subs: seq<Subscription>): (r: seq<Subscription>)
    ensures forall x :: multiset(r)[x] == if x.isActive then multiset(subs)[x] else 0
    ensures IsSubsequence(r, subs)
  {
    var active := (x: Subscription) => x.isActive;
    FilterIsSubsequence(active, subs);
    FilterCounts(active, subs);
    Filter(active, subs)
  }

  /** `reduce(0) { $0 + $1.monthlyCost }`: a left fold over the list. */
  function SumMonthlyCost(subs: seq<Subscription>): (r: real)
    ensures (forall x :: x in subs ==> x.cost > 0.0) ==> r >= 0.0
    ensures (forall x :: x in subs ==> x.cost > 0.0) && subs != [] ==> r > 0.0
  {
    if subs == [] then 0.0
    else SumMonthlyCost(subs[..|subs| - 1]) + subs[|subs| - 1].MonthlyCost()
  }

  lemma {:induction false} SumMonthlyCostAppend(s: seq<Subscription>, t: seq<Subscription>)
    ensures SumMonthlyCost(s + t) == SumMonthlyCost(s) + SumMonthlyCost(t)
    decreases |t|
  {
    if t == [] {
      assert s + t == s;
    } else {
      var u := t[..|t| - 1];
      assert (s + t)[..|s + t| - 1] == s + u;
      SumMonthlyCostAppend(s, u);
    }
  }

  /**
   * `totalMonthlyCost`: with every cost positive, the total is non-negative,
   * and positive exactly when some record is active.
   */
  function TotalMonthlyCost(subs: seq<Subscription>): (r: real)
    ensures (forall x :: x in subs ==> x.cost > 0.0) ==>
              r >= 0.0 && (r > 0.0 <==> exists x :: x in subs && x.isActive)
  {
    var active := ActiveSubscriptions(subs);
    SelectionSumPositive(active, subs, (x: Subscription) => x.isActive);
    SumMonthlyCost(active)
  }

  /**
   * The monthly costs of a selection from `subs`, summed: with every cost
   * positive, the sum is positive exactly when something was selected.
   */
  lemma SelectionSumPositive(selected: seq<Subscription>, subs: seq<Subscription>, p: Subscription -> bool)
    requires forall x :: multiset(selected)[x] == if p(x) then multiset(subs)[x] else 0
    ensures (forall x :: x in subs ==> x.cost > 0.0) ==>
              SumMonthlyCost(selected) >= 0.0
              && (SumMonthlyCost(selected) > 0.0 <==> exists x :: x in subs && p(x))
  {
    if forall x :: x in subs ==> x.cost > 0.0 {
      forall x | x in selected ensures x in subs && p(x) {
        assert multiset(selected)[x] > 0;
      }
      forall x | x in subs && p(x) ensures x in selected {
        assert multiset(subs)[x] > 0;
      }
      if selected != [] {
        assert selected[0] in subs && p(selected[0]);
      }
    }
  }

  /** Appending a record extends the active list by that record exactly when it is active. */
  lemma ActiveSubscriptionsSnoc(subs: seq<Subscription>, x: Subscription)
    ensures ActiveSubscriptions(subs + [x]) == ActiveSubscriptions(subs) + (if x.isActive then [x] else [])
  {
    FilterSnoc((y: Subscription) => y.isActive, subs, x);
  }

  lemma SumMonthlyCostSnoc(s: seq<Subscription>, x: Subscription, counted: bool)
    ensures SumMonthlyCost(s + (if counted then [x] else []))
         == SumMonthlyCost(s) + (if counted then x.MonthlyCost() else 0.0)
  {
    if counted {
      assert (s + [x])[..|s|] == s;
    } else {
      assert s + [] == s;
    }
  }

  /**
   * The monthly total, one record at a time: appending a record adds its
   * monthly cost when it is active and nothing when it is not.
   */
  lemma TotalMonthlyCostAppend(subs: seq<Subscription>, x: Subscription)
    ensures TotalMonthlyCost(subs + [x])
         == TotalMonthlyCost(subs) + (if x.isActive then x.MonthlyCost() else 0.0)
  {
    ActiveSubscriptionsSnoc(subs, x);
    SumMonthlyCostSnoc(ActiveSubscriptions(subs), x, x.isActive);
  }

  /**
   * The demo list: 9.99 + 15.99 + 239.88 / 12 + 96.00 / 12 + 4.00 a month,
   * twelve times that a year.
   */
  lemma SampleDataTotals(now: Date, cal: Calendar, ids: seq<Uuid>)
    requires |ids| == 5
    ensures TotalMonthlyCost(SampleData(now, cal, ids)) == 57.97
    ensures TotalYearlyCost(SampleData(now, cal, ids)) == 695.64
  {
    var d := SampleData(now, cal, ids);
    SampleDataMonthlyCosts(now, cal, ids);
    TotalMonthlyCostOfFiveActive(d);
  }

  lemma SampleDataMonthlyCosts(now: Date, cal: Calendar, ids: seq<Uuid>)
    requires |ids| == 5
    ensures var d := SampleData(now, cal, ids);
      && d[0].MonthlyCost() == 9.99 && d[1].MonthlyCost() == 15.99 && d[2].MonthlyCost() == 19.99
      && d[3].MonthlyCost() == 8.0 && d[4].MonthlyCost() == 4.0
  {
  }

  lemma TotalMonthlyCostOfFiveActive(d: seq<Subscription>)
    requires |d| == 5 && forall i :: 0 <= i < 5 ==> d[i].isActive
    ensures TotalMonthlyCost(d)
         == d[0].MonthlyCost() + d[1].MonthlyCost() + d[2].MonthlyCost() + d[3].MonthlyCost() + d[4].MonthlyCost()
  {
    assert forall x :: x in d ==> x.isActive;
    FilterKeepsAll((x: Subscription) => x.isActive, d);
    SumMonthlyCostOfFive(d);
  }

  lemma SumMonthlyCostOfFive(d: seq<Subscription>)
    requires |d| == 5
    ensures SumMonthlyCost(d)
         == d[0].MonthlyCost() + d[1].MonthlyCost() + d[2].MonthlyCost() + d[3].MonthlyCost() + d[4].MonthlyCost()
  {
    assert SumMonthlyCost(d) == SumMonthlyCost(d[..4]) + d[4].MonthlyCost();
    assert d[..4][..3] == d[..3];
    assert SumMonthlyCost(d[..4]) == SumMonthlyCost(d[..3]) + d[3].MonthlyCost();
    assert d[..3][..2] == d[..2];
    assert SumMonthlyCost(d[..3]) == SumMonthlyCost(d[..2]) + d[2].MonthlyCost();
    assert d[..2][..1] == d[..1];
    assert SumMonthlyCost(d[..2]) == SumMonthlyCost(d[..1]) + d[1].MonthlyCost();
    assert d[..1][..0] == [];
    assert SumMonthlyCost(d[..1]) == d[0].MonthlyCost();
  }

  /**
   * `totalYearlyCost()`: twelve monthly totals, which is twelve times the
   * sum of the per-category totals.
   */
  function TotalYearlyCost(subs: seq<Subscription>): (r: real)
    ensures r == 12.0 * SumOfCategoryTotals(subs, AllCategories())
    ensures (forall x :: x in subs ==> x.cost > 0.0) ==>
              r >= 0.0 && (r > 0.0 <==> exists x :: x in subs && x.isActive)
  {
    CategoryTotalsAddUpToMonthlyTotal(subs);
    TotalMonthlyCost(subs) * 12.0
  }

  /**
   * The yearly total is twelve monthly totals, so an active annual plan adds
   * exactly its cost to it, and a monthly plan twelve times its cost.
   */
  lemma TotalYearlyCostAppend(subs: seq<Subscription>, x: Subscription)
    ensures x.isActive && x.billingCycle == Annually ==>
              TotalYearlyCost(subs + [x]) == TotalYearlyCost(subs) + x.cost
    ensures x.isActive && x.billingCycle == Monthly ==>
              TotalYearlyCost(subs + [x]) == TotalYearlyCost(subs) + 12.0 * x.cost
    ensures !x.isActive ==> TotalYearlyCost(subs + [x]) == TotalYearlyCost(subs)
  {
    TotalMonthlyCostAppend(subs, x);
    var added := if x.isActive then x.MonthlyCost() else 0.0;
    var m := TotalMonthlyCost(subs);
    assert (m + added) * 12.0 == m * 12.0 + added * 12.0;
    if x.isActive {
      x.YearOfMonthlyCost();
    }
  }

  /** `subscriptionsForCategory`: the active records of one category, in list order. */
  function SubscriptionsForCategory(subs: seq<Subscription>, c: SubscriptionCategory): (r: seq<Subscription>)
    ensures forall x :: multiset(r)[x] == if x.isActive && x.category == c then multiset(subs)[x] else 0
    ensures IsSubsequence(r, subs)
  {
    var inCategory := (x: Subscription) => x.category == c;
    var active := ActiveSubscriptions(subs);
    FilterIsSubsequence(inCategory, active);
    FilterCounts(inCategory, active);
    SubsequenceTransitive(Filter(inCategory, active), active, subs);
    Filter(inCategory, active)
  }

  /**
   * `totalCostForCategory`: with every cost positive, the total is
   * non-negative, and positive exactly when some active record has the category.
   */
  function TotalCostForCategory(subs: seq<Subscription>, c: SubscriptionCategory): (r: real)
    ensures (forall x :: x in subs ==> x.cost > 0.0) ==>
              r >= 0.0 && (r > 0.0 <==> exists x :: x in subs && x.isActive && x.category == c)
  {
    var inCategory := SubscriptionsForCategory(subs, c);
    SelectionSumPositive(inCategory, subs, (x: Subscription) => x.isActive && x.category == c);
    SumMonthlyCost(inCategory)
  }

  lemma SubscriptionsForCategorySnoc(subs: seq<Subscription>, x: Subscription, c: SubscriptionCategory)
    ensures SubscriptionsForCategory(subs + [x], c)
         == SubscriptionsForCategory(subs, c) + (if x.isActive && x.category == c then [x] else [])
  {
    var inCategory := (y: Subscription) => y.category == c;
    ActiveSubscriptionsSnoc(subs, x);
    if x.isActive {
      FilterSnoc(inCategory, ActiveSubscriptions(subs), x);
    } else {
      assert ActiveSubscriptions(subs + [x]) == ActiveSubscriptions(subs);
    }
  }

  /** A category total, one record at a time. */
  lemma TotalCostForCategoryAppend(subs: seq<Subscription>, x: Subscription, c: SubscriptionCategory)
    ensures TotalCostForCategory(subs + [x], c)
         == TotalCostForCategory(subs, c) + (if x.isActive && x.category == c then x.MonthlyCost() else 0.0)
  {
    SubscriptionsForCategorySnoc(subs, x, c);
    SumMonthlyCostSnoc(SubscriptionsForCategory(subs, c), x, x.isActive && x.category == c);
  }

  /** The category totals of `cats`, added up. */
  function SumOfCategoryTotals(subs: seq<Subscription>, cats: seq<SubscriptionCategory>): real
  {
    if cats == [] then 0.0
    else TotalCostForCategory(subs, cats[0]) + SumOfCategoryTotals(subs, cats[1..])
  }

  lemma {:induction false} SumOfCategoryTotalsAppend(
    subs: seq<Subscription>, x: Subscription, cats: seq<SubscriptionCategory>)
    requires forall i, j :: 0 <= i < j < |cats| ==> cats[i] != cats[j]
    ensures SumOfCategoryTotals(subs + [x], cats)
         == SumOfCategoryTotals(subs, cats)
            + (if x.isActive && x.category in cats then x.MonthlyCost() else 0.0)
  {
    if cats != [] {
      TotalCostForCategoryAppend(subs, x, cats[0]);
      SumOfCategoryTotalsAppend(subs, x, cats[1..]);
      assert x.category in cats <==> x.category == cats[0] || x.category in cats[1..];
      if x.category == cats[0] {
        assert x.category !in cats[1..];
      }
    }
  }

  /** The category breakdown partitions the monthly total: the category totals add up to it. */
  lemma {:induction false} CategoryTotalsAddUpToMonthlyTotal(subs: seq<Subscription>)
    ensures SumOfCategoryTotals(subs, AllCategories()) == TotalMonthlyCost(subs)
    decreases |subs|
  {
    if subs == [] {
      ZeroTotalsOfEmpty(AllCategories());
    } else {
      var prefix := subs[..|subs| - 1];
      var x := subs[|subs| - 1];
      assert subs == prefix + [x];
      CategoryTotalsAddUpToMonthlyTotal(prefix);
      AllCategoriesComplete();
      SumOfCategoryTotalsAppend(prefix, x, AllCategories());
      TotalMonthlyCostAppend(prefix, x);
    }
  }

  lemma {:induction false} ZeroTotalsOfEmpty(cats: seq<SubscriptionCategory>)
    ensures SumOfCategoryTotals([], cats) == 0.0
  {
    if cats != [] {
      ZeroTotalsOfEmpty(cats[1..]);
    }
  }

  /** An entry of the category breakdown. */
  datatype CategoryCost = CategoryCost(category: SubscriptionCategory, cost: real)

  /** `e` pairs its category with that category's total, and the total is positive. */
  predicate IsPositiveTotal(subs: seq<Subscription>, e: CategoryCost)
  {
    e.cost == TotalCostForCategory(subs, e.category) && e.cost > 0.0
  }

  /** The `compactMap` step: each category of `cats` whose total is positive, with that total, in order. */
  function CategoryTotals(subs: seq<Subscription>, cats: seq<SubscriptionCategory>): (r: seq<CategoryCost>)
    requires forall i, j :: 0 <= i < j < |cats| ==> cats[i] != cats[j]
    ensures forall e :: multiset(r)[e] == (if e.category in cats && IsPositiveTotal(subs, e) then 1 else 0)
  {
    if cats == [] then []
    else
      var c := cats[0];
      var head := CategoryEntry(subs, c);
      var rest := CategoryTotals(subs, cats[1..]);
      assert c !in cats[1..];
      assert forall d :: d in cats <==> d == c || d in cats[1..];
      head + rest
  }

  /** The entry `compactMap` makes for one category: none, or the category with its positive total. */
  function CategoryEntry(subs: seq<Subscription>, c: SubscriptionCategory): (r: seq<CategoryCost>)
    ensures forall e :: multiset(r)[e] == (if e.category == c && IsPositiveTotal(subs, e) then 1 else 0)
  {
    var total := TotalCostForCategory(subs, c);
    if total > 0.0 then [CategoryCost(c, total)] else []
  }

  /**
   * `categoriesWithCosts`: every category whose active monthly total is
   * positive, exactly once and paired with that total, the largest first.
   */
  function CategoriesWithCosts(subs: seq<Subscription>): (r: seq<CategoryCost>)
    ensures forall e :: multiset(r)[e] == (if IsPositiveTotal(subs, e) then 1 else 0)
    ensures forall i, j :: 0 <= i < j < |r| ==> r[i].cost >= r[j].cost
    ensures TiesInCategoryOrder(r)
  {
    AllCategoriesComplete();
    BreakdownTiesInCategoryOrder(subs);
    SortByCostDescending(CategoryTotals(subs, AllCategories()))
  }

  lemma BreakdownTiesInCategoryOrder(subs: seq<Subscription>)
    ensures TiesInCategoryOrder(SortByCostDescending(CategoryTotals(subs, AllCategories())))
  {
    var all := AllCategories();
    assert forall i, j :: 0 <= i < j < |all| ==> all[i].Ordinal() < all[j].Ordinal();
    CategoryTotalsInOrder(subs, all);
  }

  /** Entries of equal cost come in `allCases` order. */
  predicate TiesInCategoryOrder(r: seq<CategoryCost>)
  {
    forall i, j :: 0 <= i < j < |r| && r[i].cost == r[j].cost ==>
      r[i].category.Ordinal() < r[j].category.Ordinal()
  }

  /** The categories of `r` come in `allCases` order. */
  predicate InCategoryOrder(r: seq<CategoryCost>)
  {
    forall i, j :: 0 <= i < j < |r| ==> r[i].category.Ordinal() < r[j].category.Ordinal()
  }

  lemma InCategoryOrderCons(e: CategoryCost, r: seq<CategoryCost>)
    requires InCategoryOrder(r)
    requires forall d :: d in r ==> e.category.Ordinal() < d.category.Ordinal()
    ensures InCategoryOrder([e] + r)
  {
    var s := [e] + r;
    forall i, j | 0 <= i < j < |s| ensures s[i].category.Ordinal() < s[j].category.Ordinal() {
      assert s[j] == r[j - 1];
      if i > 0 {
        assert s[i] == r[i - 1];
      }
    }
  }

  /** Every entry of `CategoryTotals(subs, cats)` has one of `cats` as its category. */
  lemma CategoryTotalsCategories(subs: seq<Subscription>, cats: seq<SubscriptionCategory>)
    requires forall i, j :: 0 <= i < j < |cats| ==> cats[i] != cats[j]
    ensures forall e :: e in CategoryTotals(subs, cats) ==> e.category in cats
  {
    var r := CategoryTotals(subs, cats);
    forall e | e in r ensures e.category in cats {
      assert multiset(r)[e] > 0;
    }
  }

  /** `compactMap` keeps the order of `cats`. */
  lemma {:induction false} CategoryTotalsInOrder(subs: seq<Subscription>, cats: seq<SubscriptionCategory>)
    requires forall i, j :: 0 <= i < j < |cats| ==> cats[i].Ordinal() < cats[j].Ordinal()
    ensures InCategoryOrder(CategoryTotals(subs, cats))
  {
    if cats != [] {
      var c := cats[0];
      var tail := cats[1..];
      var rest := CategoryTotals(subs, tail);
      CategoryTotalsInOrder(subs, tail);
      CategoryTotalsCategories(subs, tail);
      forall e | e in rest ensures c.Ordinal() < e.category.Ordinal() {
        var k :| 0 <= k < |tail| && tail[k] == e.category;
        assert cats[k + 1] == e.category;
      }
      if TotalCostForCategory(subs, c) > 0.0 {
        var e := CategoryCost(c, TotalCostForCategory(subs, c));
        assert CategoryEntry(subs, c) == [e];
        assert CategoryTotals(subs, cats) == [e] + rest;
        InCategoryOrderCons(e, rest);
      } else {
        assert CategoryEntry(subs, c) == [];
        assert CategoryTotals(subs, cats) == rest;
      }
    }
  }

  /** The sort key of the breakdown: the larger the cost, the earlier. */
  function CostDescending(e: CategoryCost): real
  {
    -e.cost
  }

  /** The position of the entry's category in `allCases`. */
  function CategoryRank(e: CategoryCost): int
  {
    e.category.Ordinal()
  }

  /**
   * `sorted { $0.cost > $1.cost }`, which is stable: entries of equal cost
   * keep the order of their categories in `entries`.
   */
  function SortByCostDescending(entries: seq<CategoryCost>): (r: seq<CategoryCost>)
    ensures multiset(r) == multiset(entries)
    ensures forall i, j :: 0 <= i < j < |r| ==> r[i].cost >= r[j].cost
    ensures InCategoryOrder(entries) ==> TiesInCategoryOrder(r)
  {
    var r := SortBy(CostDescending, entries);
    assert forall i, j :: 0 <= i < j < |r| ==> CostDescending(r[i]) <= CostDescending(r[j]);
    CostTiesKeepCategoryOrder(entries, r);
    r
  }

  lemma CostTiesKeepCategoryOrder(entries: seq<CategoryCost>, r: seq<CategoryCost>)
    requires r == SortBy(CostDescending, entries)
    ensures InCategoryOrder(entries) ==> TiesInCategoryOrder(r)
  {
    if InCategoryOrder(entries) {
      assert forall i, j :: 0 <= i < j < |entries| ==> CategoryRank(entries[i]) < CategoryRank(entries[j]);
      SortByIsStable(CostDescending, CategoryRank, entries);
      forall i, j | 0 <= i < j < |r| && r[i].cost == r[j].cost
        ensures r[i].category.Ordinal() < r[j].category.Ordinal()
      {
        assert CostDescending(r[i]) == CostDescending(r[j]);
      }
    }
  }

  /** Each category appears at most once, with its total, and exactly the categories with a positive total appear. */
  lemma CategoriesWithCostsListsEachOnce(subs: seq<Subscription>)
    ensures var r := CategoriesWithCosts(subs);
      && (forall i, j :: 0 <= i < j < |r| ==> r[i].category != r[j].category)
      && (forall i :: 0 <= i < |r| ==> r[i].cost == TotalCostForCategory(subs, r[i].category) > 0.0)
      && (forall c :: TotalCostForCategory(subs, c) > 0.0 <==> exists i :: 0 <= i < |r| && r[i].category == c)
  {
    var r := CategoriesWithCosts(subs);
    var total := (c: SubscriptionCategory) => TotalCostForCategory(subs, c);
    forall e: CategoryCost ensures multiset(r)[e] == (if e.cost == total(e.category) && e.cost > 0.0 then 1 else 0) {
      assert IsPositiveTotal(subs, e) == (e.cost == total(e.category) && e.cost > 0.0);
    }
    BreakdownListsEachOnce(r, total);
    assert forall c :: total(c) == TotalCostForCategory(subs, c);
  }

  /** The facts above, for any table of totals that `r` lists once each when positive. */
  lemma BreakdownListsEachOnce(r: seq<CategoryCost>, total: SubscriptionCategory -> real)
    requires forall e :: multiset(r)[e] == (if e.cost == total(e.category) && e.cost > 0.0 then 1 else 0)
    ensures forall i, j :: 0 <= i < j < |r| ==> r[i].category != r[j].category
    ensures forall i :: 0 <= i < |r| ==> r[i].cost == total(r[i].category) > 0.0
    ensures forall c :: total(c) > 0.0 <==> exists i :: 0 <= i < |r| && r[i].category == c
  {
    forall i | 0 <= i < |r| ensures r[i].cost == total(r[i].category) > 0.0 {
      assert multiset(r)[r[i]] > 0;
    }
    forall i, j | 0 <= i < j < |r| ensures r[i].category != r[j].category {
      if r[i].category == r[j].category {
        TwiceInSequence(r, i, j);
      }
    }
    forall c | total(c) > 0.0 ensures exists i :: 0 <= i < |r| && r[i].category == c {
      var e := CategoryCost(c, total(c));
      assert multiset(r)[e] == 1;
      var i :| 0 <= i < |r| && r[i] == e;
    }
  }

  /** An element at two positions occurs at least twice. */
  lemma TwiceInSequence<T>(s: seq<T>, i: nat, j: nat)
    requires i < j < |s| && s[i] == s[j]
    ensures multiset(s)[s[i]] >= 2
  {
    assert s == s[..j] + s[j..];
    assert s[i] in s[..j];
    assert s[j] in s[j..];
  }

  /** `min(by:)` on the payment date: the first record with the earliest date, none for an empty list. */
  function EarliestPayment(subs: seq<Subscription>): (r: Option<Subscription>)
    ensures r.None? <==> subs == []
    ensures r.Some? ==> r.value in subs
    ensures r.Some? ==> forall x :: x in subs ==> r.value.nextPaymentDate <= x.nextPaymentDate
    ensures r.Some? ==> exists i :: (0 <= i < |subs| && subs[i] == r.value &&
              forall j :: 0 <= j < i ==> subs[j].nextPaymentDate > r.value.nextPaymentDate)
  {
    if subs == [] then None
    else
      var prefix := subs[..|subs| - 1];
      var last := subs[|subs| - 1];
      assert subs == prefix + [last];
      match EarliestPayment(prefix)
      case None => Some(last)
      case Some(m) => if last.nextPaymentDate < m.nextPaymentDate then Some(last) else Some(m)
  }

  /**
   * `nextUpcomingPayment`: among the active records due now or later, the
   * one due first; none exactly when no active record is due now or later.
   */
  function NextUpcomingPayment(subs: seq<Subscription>, now: Date): (r: Option<Subscription>)
    ensures r.None? <==> forall x :: x in subs && x.isActive ==> x.nextPaymentDate < now
    ensures r.Some? ==> r.value in subs && r.value.isActive && r.value.nextPaymentDate >= now
    ensures r.Some? ==> forall x :: x in subs && x.isActive && x.nextPaymentDate >= now ==>
              r.value.nextPaymentDate <= x.nextPaymentDate
    ensures r.Some? ==> FirstDueOn(subs, now, r.value)
  {
    var isDue := (x: Subscription) => x.nextPaymentDate >= now;
    var due := Filter(isDue, ActiveSubscriptions(subs));
    FilterCounts(isDue, ActiveSubscriptions(subs));
    assert forall x :: x in due <==> x in subs && x.isActive && x.nextPaymentDate >= now by {
      forall x ensures x in due <==> x in subs && x.isActive && x.nextPaymentDate >= now {
        assert x in due <==> multiset(due)[x] > 0;
      }
    }
    var e := EarliestPayment(due);
    NextUpcomingPaymentIsFirst(subs, now, e);
    e
  }

  /**
   * `v` is at a position of `subs` in front of which every active record
   * due at or after `now` is due strictly later than `v`.
   */
  ghost predicate FirstDueOn(subs: seq<Subscription>, now: Date, v: Subscription)
  {
    exists i :: 0 <= i < |subs| && subs[i] == v &&
                forall j :: 0 <= j < i && subs[j].isActive && subs[j].nextPaymentDate >= now ==>
                              subs[j].nextPaymentDate > v.nextPaymentDate
  }

  /** The earliest due record keeps its place: no earlier-listed due record ties with it. */
  lemma NextUpcomingPaymentIsFirst(subs: seq<Subscription>, now: Date, e: Option<Subscription>)
    requires e == EarliestPayment(Filter((x: Subscription) => x.nextPaymentDate >= now, ActiveSubscriptions(subs)))
    ensures e.Some? ==> FirstDueOn(subs, now, e.value)
  {
    if e.Some? {
      var k := EarliestDueInPlace(ActiveSubscriptions(subs), now, e.value);
      FirstDueAmongActive(subs, now, e.value, k);
    }
  }

  /** Through the due filter: the earliest due record's place among all records. */
  lemma EarliestDueInPlace(active: seq<Subscription>, now: Date, v: Subscription) returns (k: nat)
    requires EarliestPayment(Filter((x: Subscription) => x.nextPaymentDate >= now, active)) == Some(v)
    ensures k < |active| && active[k] == v
    ensures forall j :: 0 <= j < k && active[j].nextPaymentDate >= now ==> active[j].nextPaymentDate > v.nextPaymentDate
  {
    var isDue := (x: Subscription) => x.nextPaymentDate >= now;
    var due := Filter(isDue, active);
    var later := (x: Subscription) => x.nextPaymentDate > v.nextPaymentDate;
    var m :| 0 <= m < |due| && due[m] == v && forall j :: 0 <= j < m ==> due[j].nextPaymentDate > v.nextPaymentDate;
    FilterFindsInOrder(isDue, later, active, m);
    k :| 0 <= k < |active| && active[k] == v && forall j :: 0 <= j < k && isDue(active[j]) ==> later(active[j]);
  }

  /** Through the activity filter: a place among the active records gives one among all records. */
  lemma FirstDueAmongActive(subs: seq<Subscription>, now: Date, v: Subscription, k: nat)
    requires k < |ActiveSubscriptions(subs)| && ActiveSubscriptions(subs)[k] == v
    requires forall j :: 0 <= j < k && ActiveSubscriptions(subs)[j].nextPaymentDate >= now ==>
                           ActiveSubscriptions(subs)[j].nextPaymentDate > v.nextPaymentDate
    ensures FirstDueOn(subs, now, v)
  {
    var active := ActiveSubscriptions(subs);
    var isActive := (x: Subscription) => x.isActive;
    var dueLater := (x: Subscription) => x.nextPaymentDate >= now ==> x.nextPaymentDate > v.nextPaymentDate;
    assert active == Filter(isActive, subs);
    assert forall j :: 0 <= j < k ==> dueLater(active[j]);
    FilterFindsInOrder(isActive, dueLater, subs, k);
    var i :| 0 <= i < |subs| && subs[i] == active[k] &&
             forall j :: 0 <= j < i && isActive(subs[j]) ==> dueLater(subs[j]);
    forall j | 0 <= j < i && subs[j].isActive && subs[j].nextPaymentDate >= now
      ensures subs[j].nextPaymentDate > v.nextPaymentDate
    {
      assert isActive(subs[j]) && dueLater(subs[j]);
    }
  }

  /** Due no earlier than `now` and no later than `endDate`. */
  predicate InPaymentWindow(x: Subscription, now: Date, endDate: Date)
  {
    now <= x.nextPaymentDate <= endDate
  }

  /**
   * `upcomingPayments(nextDays:)`: the active records due between now and
   * `nextDays` days from now, both ends included, earliest first.
   */
  function UpcomingPayments(subs: seq<Subscription>, now: Date, cal: Calendar, nextDays: int := 30)
    : (r: seq<Subscription>)
    ensures forall x :: multiset(r)[x] == (if x.isActive && InPaymentWindow(x, now, DaysAfter(now, nextDays, cal)) then multiset(subs)[x] else 0)
    ensures forall i, j :: 0 <= i < j < |r| ==> r[i].nextPaymentDate <= r[j].nextPaymentDate
  {
    var endDate := DaysAfter(now, nextDays, cal);
    var inWindow := (x: Subscription) => InPaymentWindow(x, now, endDate);
    var due := Filter(inWindow, ActiveSubscriptions(subs));
    FilterCounts(inWindow, ActiveSubscriptions(subs));
    SortByDate(due)
  }

  /** `sorted { $0.nextPaymentDate < $1.nextPaymentDate }`. */
  function SortByDate(subs: seq<Subscription>): (r: seq<Subscription>)
    ensures multiset(r) == multiset(subs)
    ensures forall i, j :: 0 <= i < j < |r| ==> r[i].nextPaymentDate <= r[j].nextPaymentDate
  {
    var byDate := (x: Subscription) => x.nextPaymentDate as real;
    var r := SortBy(byDate, subs);
    assert forall i, j :: 0 <= i < j < |r| ==> byDate(r[i]) <= byDate(r[j]);
    r
  }
}
