/**
 * The category spreading statistic of
 * Src/MoneyFox.Business/StatisticDataProvider/CategorySpreadingDataProvider.cs:
 * the payments of a timeframe are grouped by category, each group is valued
 * at its expenses minus its incomes, and the six largest positive groups are
 * listed in descending order, followed by an "Others" item for the rest.
 */
module CategorySpreading {
  import Model
  import Seqs

  datatype PaymentType = Expense | Income | Transfer

  /** A point in time: a day number and a time within that day. `.Date` keeps the day only. */
  datatype DateTime = DateTime(day: int, timeOfDay: nat)

  datatype Category = Category(id: int, name: string)

  /** A payment; amounts are fixed-point (cents). */
  datatype Payment = Payment(id: int, date: DateTime, paymentType: PaymentType, amount: int,
                             category: Model.Option<Category>)

  /** One entry of the statistic: a category name (or "Others") and its value. */
  datatype StatisticItem = StatisticItem(name: string, value: int)

  /** How many categories are listed by name. */
  const TopCount: nat := 6

  const OthersLabel: string := "Others"

  // ---------------------------------------------------------------------------
  // Selecting the payments (`GetValues`)
  // ---------------------------------------------------------------------------

  /** An expense or income whose day lies in the inclusive range of days from start to end. */
  predicate IsSelected(p: Payment, startDate: DateTime, endDate: DateTime) {
    && startDate.day <= p.date.day <= endDate.day
    && (p.paymentType == Expense || p.paymentType == Income)
  }

  /** The repository query of `GetValues`: exactly the selected payments, each as often as it occurs. */
  function SelectPayments(payments: seq<Payment>, startDate: DateTime, endDate: DateTime): (r: seq<Payment>)
    ensures forall p :: multiset(r)[p] == if IsSelected(p, startDate, endDate) then multiset(payments)[p] else 0
  {
    Seqs.Filter(payments, (p: Payment) => IsSelected(p, startDate, endDate))
  }

  // ---------------------------------------------------------------------------
  // Grouping by category name
  // ---------------------------------------------------------------------------

  /** The group key of a payment: its category's name, or the empty string without a category. */
  function CategoryName(p: Payment): string {
    match p.category
    case None => ""
    case Some(c) => c.name
  }

  /** What a payment adds to its group: an income counts negatively, anything else positively. */
  function SignedAmount(p: Payment): int {
    if p.paymentType == Income then -p.amount else p.amount
  }

  /** The signed amounts of all payments added up. */
  function SignedTotal(ps: seq<Payment>): int {
    if ps == [] then 0 else SignedTotal(ps[..|ps| - 1]) + SignedAmount(ps[|ps| - 1])
  }

  /** The group keys in order of first appearance, each once (the keys of LINQ `group by`). */
  function GroupLabels(ps: seq<Payment>): (r: seq<string>)
    ensures forall i, j :: 0 <= i < j < |r| ==> r[i] != r[j]
    ensures forall n :: n in r <==> exists p :: p in ps && CategoryName(p) == n
  {
    if ps == [] then []
    else
      var front := GroupLabels(ps[..|ps| - 1]);
      var n := CategoryName(ps[|ps| - 1]);
      assert ps == ps[..|ps| - 1] + [ps[|ps| - 1]];
      if n in front then front else front + [n]
  }

  /** The value of one group: the signed amounts of the payments with that group key added up. */
  function GroupValue(ps: seq<Payment>, name: string): int {
    if ps == [] then 0
    else
      var last := ps[|ps| - 1];
      GroupValue(ps[..|ps| - 1], name) + (if CategoryName(last) == name then SignedAmount(last) else 0)
  }

  /** One item per name, valued at that name's group value. */
  function ItemsFor(ps: seq<Payment>, labels: seq<string>): seq<StatisticItem> {
    seq(|labels|, i requires 0 <= i < |labels| => StatisticItem(labels[i], GroupValue(ps, labels[i])))
  }

  /** The grouped statistic before filtering, one item per category name. */
  function Grouped(ps: seq<Payment>): seq<StatisticItem> {
    ItemsFor(ps, GroupLabels(ps))
  }

  /** The sum of the values of a list of items. */
  function SumValues(items: seq<StatisticItem>): int {
    if items == [] then 0 else items[0].value + SumValues(items[1..])
  }

  lemma {:induction false} SumValuesConcat(a: seq<StatisticItem>, b: seq<StatisticItem>)
    ensures SumValues(a + b) == SumValues(a) + SumValues(b)
  {
    if a == [] {
      assert a + b == b;
    } else {
      assert (a + b)[1..] == a[1..] + b;
      SumValuesConcat(a[1..], b);
    }
  }

  /** A non-empty list of positive values has a positive sum. */
  lemma {:induction false} SumValuesPositive(items: seq<StatisticItem>)
    requires forall i :: 0 <= i < |items| ==> items[i].value > 0
    ensures items != [] ==> SumValues(items) > 0
    ensures items == [] ==> SumValues(items) == 0
  {
    if items != [] {
      SumValuesPositive(items[1..]);
    }
  }

  /**
   * The group items: one per category name that occurs, with distinct names,
   * each valued at the signed sum of its payments.
   */
  lemma GroupedIsGrouping(ps: seq<Payment>)
    ensures var r := Grouped(ps);
      && (forall i, j :: 0 <= i < j < |r| ==> r[i].name != r[j].name)
      && (forall i :: 0 <= i < |r| ==> r[i].value == GroupValue(ps, r[i].name))
      && (forall p :: p in ps ==> CategoryName(p) in GroupLabels(ps))
      && (forall i :: 0 <= i < |r| ==> exists p :: p in ps && CategoryName(p) == r[i].name)
      && Seqs.NoDuplicates(r)
  {
    var r := Grouped(ps);
    var labels := GroupLabels(ps);
    assert forall i :: 0 <= i < |r| ==> r[i].name == labels[i];
    assert forall i :: 0 <= i < |r| ==> r[i].name in labels;
    Seqs.DistinctElements(r);
  }

  /** A category name that no payment has has group value 0. */
  lemma {:induction false} GroupValueAbsent(ps: seq<Payment>, name: string)
    requires forall p :: p in ps ==> CategoryName(p) != name
    ensures GroupValue(ps, name) == 0
  {
    if ps != [] {
      GroupValueAbsent(ps[..|ps| - 1], name);
    }
  }

  /** Appending a payment to the list adds its signed amount to the group of its own name only. */
  lemma {:induction false} ItemsForAppend(ps: seq<Payment>, p: Payment, labels: seq<string>)
    requires forall i, j :: 0 <= i < j < |labels| ==> labels[i] != labels[j]
    ensures SumValues(ItemsFor(ps + [p], labels))
            == SumValues(ItemsFor(ps, labels)) + (if CategoryName(p) in labels then SignedAmount(p) else 0)
  {
    if labels != [] {
      assert (ps + [p])[..|ps + [p]| - 1] == ps;
      assert ItemsFor(ps + [p], labels)[1..] == ItemsFor(ps + [p], labels[1..]);
      assert ItemsFor(ps, labels)[1..] == ItemsFor(ps, labels[1..]);
      ItemsForAppend(ps, p, labels[1..]);
      assert CategoryName(p) == labels[0] ==> CategoryName(p) !in labels[1..];
    }
  }

  /** Grouping loses and double-counts nothing: the group values add up to the signed total. */
  lemma {:induction false} GroupingKeepsTotal(ps: seq<Payment>)
    ensures SumValues(Grouped(ps)) == SignedTotal(ps)
  {
    if ps != [] {
      var front := ps[..|ps| - 1];
      var p := ps[|ps| - 1];
      assert ps == front + [p];
      GroupingKeepsTotal(front);
      var labels := GroupLabels(front);
      ItemsForAppend(front, p, labels);
      if CategoryName(p) !in labels {
        var n := CategoryName(p);
        assert GroupLabels(ps) == labels + [n];
        assert ItemsFor(ps, labels + [n]) == ItemsFor(ps, labels) + [StatisticItem(n, GroupValue(ps, n))];
        SumValuesConcat(ItemsFor(ps, labels), [StatisticItem(n, GroupValue(ps, n))]);
        GroupValueAbsent(front, n);
      }
    }
  }

  // ---------------------------------------------------------------------------
  // Filtering, ordering and taking the top six
  // ---------------------------------------------------------------------------

  /** The groups with a positive value (`Where(x => x.Value > 0)`). */
  function Positive(items: seq<StatisticItem>): seq<StatisticItem> {
    Seqs.Filter(items, (x: StatisticItem) => x.value > 0)
  }

  /** Values never increase along the list. */
  predicate Descending(s: seq<StatisticItem>) {
    forall i, j :: 0 <= i < j < |s| ==> s[i].value >= s[j].value
  }

  /** Putting an item in front of a descending list that holds nothing larger keeps it descending. */
  lemma ConsDescending(a: StatisticItem, rest: seq<StatisticItem>)
    requires Descending(rest)
    requires forall i :: 0 <= i < |rest| ==> rest[i].value <= a.value
    ensures Descending([a] + rest)
  {
  }

  /**
   * Insertion in front of the first element that is not larger, so that `x`
   * stays ahead of equal values that followed it in the input.
   */
  function InsertDescending(x: StatisticItem, s: seq<StatisticItem>): (r: seq<StatisticItem>)
    ensures multiset(r) == multiset(s) + multiset{x}
    ensures SumValues(r) == x.value + SumValues(s)
  {
    if s == [] || s[0].value <= x.value then
      [x] + s
    else
      assert s == [s[0]] + s[1..];
      [s[0]] + InsertDescending(x, s[1..])
  }

  /** Insertion keeps a descending list descending. */
  lemma {:induction false} InsertKeepsDescending(x: StatisticItem, s: seq<StatisticItem>)
    requires Descending(s)
    ensures Descending(InsertDescending(x, s))
  {
    if s == [] || s[0].value <= x.value {
      ConsDescending(x, s);
    } else {
      var rest := InsertDescending(x, s[1..]);
      InsertKeepsDescending(x, s[1..]);
      forall i | 0 <= i < |rest|
        ensures rest[i].value <= s[0].value
      {
        assert rest[i] in multiset(rest);
        assert rest[i] == x || rest[i] in s[1..];
      }
      ConsDescending(s[0], rest);
    }
  }

  /** `OrderByDescending(x => x.Value)`: a stable sort, largest value first. */
  function SortDescending(s: seq<StatisticItem>): (r: seq<StatisticItem>)
    ensures multiset(r) == multiset(s)
    ensures SumValues(r) == SumValues(s)
  {
    if s == [] then []
    else
      assert s == [s[0]] + s[1..];
      InsertDescending(s[0], SortDescending(s[1..]))
  }

  /** The sorted list is descending. */
  lemma {:induction false} SortIsDescending(s: seq<StatisticItem>)
    ensures Descending(SortDescending(s))
  {
    if s != [] {
      SortIsDescending(s[1..]);
      InsertKeepsDescending(s[0], SortDescending(s[1..]));
    }
  }

  /** `tempStatisticList`: the positive groups, largest first. */
  function Ranked(ps: seq<Payment>): seq<StatisticItem> {
    SortDescending(Positive(Grouped(ps)))
  }

  /** `Take(6)`. */
  function TakeTop(items: seq<StatisticItem>): seq<StatisticItem> {
    items[..if |items| < TopCount then |items| else TopCount]
  }

  /** The ranked items that were not taken (`Where(x => !statisticList.Contains(x))`). */
  function Remaining(temp: seq<StatisticItem>, taken: seq<StatisticItem>): seq<StatisticItem> {
    Seqs.Filter(temp, (x: StatisticItem) => x !in taken)
  }

  /** `AddOtherItem`: once six items were taken, a positive remainder is appended as "Others". */
  function WithOthers(temp: seq<StatisticItem>, taken: seq<StatisticItem>): seq<StatisticItem> {
    if |taken| < TopCount then taken
    else
      var others := StatisticItem(OthersLabel, SumValues(Remaining(temp, taken)));
      if others.value > 0 then taken + [others] else taken
  }

  /** The statistic of `GetSpreadingStatisticItems`, labels not yet decorated. */
  function Spreading(ps: seq<Payment>): seq<StatisticItem> {
    var temp := Ranked(ps);
    WithOthers(temp, TakeTop(temp))
  }

  /** Ranking a list without duplicates: the result is its positive items, descending, without duplicates. */
  lemma RankFacts(g: seq<StatisticItem>)
    requires Seqs.NoDuplicates(g)
    ensures var temp := SortDescending(Positive(g));
      && Descending(temp)
      && Seqs.NoDuplicates(temp)
      && (forall i :: 0 <= i < |temp| ==> temp[i].value > 0)
      && (forall x :: x in temp <==> x in g && x.value > 0)
      && SumValues(temp) == SumValues(Positive(g))
  {
    var pos := Positive(g);
    var temp := SortDescending(pos);
    SortIsDescending(pos);
    forall x
      ensures multiset(temp)[x] <= 1
      ensures x in temp <==> x in g && x.value > 0
    {
      assert multiset(temp)[x] == multiset(pos)[x];
      assert multiset(g)[x] <= 1;
      assert x in temp <==> multiset(temp)[x] > 0;
      assert x in g <==> multiset(g)[x] > 0;
    }
    forall i | 0 <= i < |temp|
      ensures temp[i].value > 0
    {
      assert temp[i] in temp;
    }
  }

  /** The ranked groups: distinct, positive, descending, and exactly the positive groups. */
  lemma RankedFacts(ps: seq<Payment>)
    ensures var temp := Ranked(ps);
      && Descending(temp)
      && Seqs.NoDuplicates(temp)
      && (forall i :: 0 <= i < |temp| ==> temp[i].value > 0)
      && (forall x :: x in temp <==> x in Grouped(ps) && x.value > 0)
      && SumValues(temp) == SumValues(Positive(Grouped(ps)))
  {
    GroupedIsGrouping(ps);
    RankFacts(Grouped(ps));
  }

  /** With no duplicates, what is left after taking a prefix is exactly the rest of the list. */
  lemma RemainingIsRest(temp: seq<StatisticItem>, n: nat)
    requires Seqs.NoDuplicates(temp) && n <= |temp|
    ensures Remaining(temp, temp[..n]) == temp[n..]
  {
    var taken := temp[..n];
    var p := (x: StatisticItem) => x !in taken;
    assert temp == taken + temp[n..];
    Seqs.FilterConcat(taken, temp[n..], p);
    Seqs.FilterDropsAll(taken, p);
    forall i | 0 <= i < |temp[n..]|
      ensures p(temp[n..][i])
    {
      Seqs.SuffixOutsidePrefix(temp, n, temp[n..][i]);
    }
    Seqs.FilterKeepsAll(temp[n..], p);
  }

  /** `Take(6)` followed by `AddOtherItem` on a ranked list of distinct positive items. */
  lemma {:induction false} TopWithOthersShape(temp: seq<StatisticItem>)
    requires Seqs.NoDuplicates(temp)
    requires forall i :: 0 <= i < |temp| ==> temp[i].value > 0
    ensures var r := WithOthers(temp, TakeTop(temp));
      && (|temp| <= TopCount ==> r == temp)
      && (|temp| > TopCount ==>
            r == temp[..TopCount] + [StatisticItem(OthersLabel, SumValues(temp[TopCount..]))])
  {
    if |temp| >= TopCount {
      RemainingIsRest(temp, TopCount);
      SumValuesPositive(temp[TopCount..]);
      if |temp| == TopCount {
        assert temp[..TopCount] == temp;
      }
    } else {
      assert temp[..|temp|] == temp;
    }
  }

  /**
   * The shape of the result: the first items are the largest groups, at most
   * six of them; a seventh item "Others" appears exactly when more than six
   * positive groups exist, and it carries the sum of all groups beyond the
   * sixth.
   */
  lemma SpreadingShape(ps: seq<Payment>)
    ensures var temp := Ranked(ps);
      var r := Spreading(ps);
      && (|temp| <= TopCount ==> r == temp)
      && (|temp| > TopCount ==>
            r == temp[..TopCount] + [StatisticItem(OthersLabel, SumValues(temp[TopCount..]))])
  {
    RankedFacts(ps);
    TopWithOthersShape(Ranked(ps));
  }

  /** At most six categories, so at most seven items with "Others", the seventh only beyond six groups. */
  lemma SpreadingBounded(ps: seq<Payment>)
    ensures |Spreading(ps)| <= TopCount + 1
    ensures |Spreading(ps)| == TopCount + 1 <==> |Ranked(ps)| > TopCount
    ensures |Spreading(ps)| == TopCount + 1 ==> Spreading(ps)[TopCount].name == OthersLabel
  {
    SpreadingShape(ps);
  }

  /** Every item, "Others" included, has a strictly positive value. */
  lemma SpreadingPositive(ps: seq<Payment>)
    ensures forall i :: 0 <= i < |Spreading(ps)| ==> Spreading(ps)[i].value > 0
  {
    var temp := Ranked(ps);
    var r := Spreading(ps);
    SpreadingShape(ps);
    RankedFacts(ps);
    if |temp| > TopCount {
      SumValuesPositive(temp[TopCount..]);
      forall i | 0 <= i < |r|
        ensures r[i].value > 0
      {
        if i < TopCount {
          assert r[i] == temp[i];
        }
      }
    }
  }

  /** The category items come in non-increasing order of value. */
  lemma SpreadingDescending(ps: seq<Payment>)
    ensures var r := Spreading(ps);
      forall i, j :: 0 <= i < j < |r| && j < TopCount ==> r[i].value >= r[j].value
  {
    var temp := Ranked(ps);
    var r := Spreading(ps);
    SpreadingShape(ps);
    RankedFacts(ps);
    forall i, j | 0 <= i < j < |r| && j < TopCount
      ensures r[i].value >= r[j].value
    {
      assert r[i] == temp[i] && r[j] == temp[j];
    }
  }

  /**
   * The first `n` items of a descending ranking of the positive items of `g`
   * are positive items of `g`, and every positive item of `g` outside them is
   * worth no more than any of them.
   */
  lemma PrefixHoldsLargest(g: seq<StatisticItem>, temp: seq<StatisticItem>, n: nat)
    requires Descending(temp) && n <= |temp|
    requires forall x :: x in temp <==> x in g && x.value > 0
    ensures forall i :: 0 <= i < n ==> temp[..n][i] in g && temp[..n][i].value > 0
    ensures forall x, i :: x in g && x.value > 0 && x !in temp[..n] && 0 <= i < n ==>
              x.value <= temp[..n][i].value
  {
    assert forall k :: 0 <= k < n ==> temp[k] in temp[..n];
    forall i | 0 <= i < n
      ensures temp[..n][i] in g && temp[..n][i].value > 0
    {
      assert temp[i] in temp;
    }
    forall x, i | x in g && x.value > 0 && x !in temp[..n] && 0 <= i < n
      ensures x.value <= temp[..n][i].value
    {
      var j :| 0 <= j < |temp| && temp[j] == x;
      assert j >= n;
    }
  }

  /**
   * The category items are positive groups, and they are the largest: a
   * positive group that is not listed is worth no more than any listed one.
   */
  lemma SpreadingListsLargestGroups(ps: seq<Payment>)
    ensures var r := Spreading(ps);
      var shown := r[..if |r| < TopCount then |r| else TopCount];
      && (forall i :: 0 <= i < |shown| ==> shown[i] in Grouped(ps) && shown[i].value > 0)
      && (forall x, i :: x in Grouped(ps) && x.value > 0 && x !in shown && 0 <= i < |shown| ==>
            x.value <= shown[i].value)
  {
    var temp := Ranked(ps);
    var r := Spreading(ps);
    SpreadingShape(ps);
    RankedFacts(ps);
    var n := if |r| < TopCount then |r| else TopCount;
    assert r[..n] == temp[..n];
    PrefixHoldsLargest(Grouped(ps), temp, n);
  }

  /** Nothing is lost or counted twice: the items add up to the sum of all positive groups. */
  lemma SpreadingKeepsTotal(ps: seq<Payment>)
    ensures SumValues(Spreading(ps)) == SumValues(Positive(Grouped(ps)))
  {
    var temp := Ranked(ps);
    RankedFacts(ps);
    SpreadingShape(ps);
    if |temp| > TopCount {
      var others := StatisticItem(OthersLabel, SumValues(temp[TopCount..]));
      assert temp == temp[..TopCount] + temp[TopCount..];
      SumValuesConcat(temp[..TopCount], temp[TopCount..]);
      SumValuesConcat(temp[..TopCount], [others]);
    }
  }

  // ---------------------------------------------------------------------------
  // The imperative part: the result list and `AddOtherItem`
  // ---------------------------------------------------------------------------

  /** The statistic list that `AddOtherItem` appends to in place. */
  class StatisticList {
    var items: seq<StatisticItem>

    constructor (items: seq<StatisticItem>)
      ensures this.items == items
    {
      this.items := items;
    }

    method Add(item: StatisticItem)
      modifies this
      ensures items == old(items) + [item]
    {
      items := items + [item];
    }
  }

  /** `AddOtherItem`: appends "Others" with the remainder when six items were taken and the remainder is positive. */
  method AddOtherItem(tempStatisticList: seq<StatisticItem>, statisticList: StatisticList)
    modifies statisticList
    ensures statisticList.items == WithOthers(tempStatisticList, old(statisticList.items))
  {
    if |statisticList.items| < TopCount {
      return;
    }
    var taken := statisticList.items;
    var othersItem := StatisticItem(OthersLabel, SumValues(Remaining(tempStatisticList, taken)));
    if othersItem.value > 0 {
      statisticList.Add(othersItem);
    }
  }

  /** `GetSpreadingStatisticItems`. */
  method GetSpreadingStatisticItems(payments: seq<Payment>) returns (result: seq<StatisticItem>)
    ensures result == Spreading(payments)
  {
    var tempStatisticList := SortDescending(Positive(Grouped(payments)));
    var statisticList := new StatisticList(TakeTop(tempStatisticList));
    AddOtherItem(tempStatisticList, statisticList);
    result := statisticList.items;
  }

  /** `GetValues`: the statistic over the expenses and incomes of the inclusive range of days. */
  method GetValues(payments: seq<Payment>, startDate: DateTime, endDate: DateTime)
    returns (result: seq<StatisticItem>)
    ensures result == Spreading(SelectPayments(payments, startDate, endDate))
  {
    result := GetSpreadingStatisticItems(SelectPayments(payments, startDate, endDate));
  }
}
