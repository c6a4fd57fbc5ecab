/**
  The read side of the transaction routes: every query is scoped to one owner.
  Lists come back newest first; the full list is capped, the date range is not;
  the summary folds over all of the owner's documents.
*/
module Ledger {
  import opened Common
  import opened ExpenseSchema

  /** `.limit(100)` on the full list. */
  const ListLimit := 100

  /** No two stored documents share an `_id`. */
  predicate UniqueIds(docs: seq<ExpenseDoc>)
  {
    forall i, j :: 0 <= i < j < |docs| ==> docs[i].id != docs[j].id
  }

  /** `find({ userId: owner })`: the owner's documents in storage order. */
  function OwnedBy(docs: seq<ExpenseDoc>, owner: string): (r: seq<ExpenseDoc>)
    ensures forall x :: x in r <==> x in docs && x.owner == owner
    ensures forall x :: multiset(r)[x] == if x.owner == owner then multiset(docs)[x] else 0
  {
    Filter(docs, (x: ExpenseDoc) => x.owner == owner)
  }

  /** A document stored for somebody else never shows up in the owner's documents. */
  lemma {:induction false} OwnedByIgnoresOthers(docs: seq<ExpenseDoc>, x: ExpenseDoc, owner: string)
    requires x.owner != owner
    ensures OwnedBy(docs + [x], owner) == OwnedBy(docs, owner)
  {
    FilterConcat(docs, [x], (y: ExpenseDoc) => y.owner == owner);
  }

  /** `findOne({ _id: id, userId: owner })`: the first document matching both id and owner. */
  function FindIndex(docs: seq<ExpenseDoc>, id: string, owner: string): (r: Option<nat>)
    ensures r.Some? ==> r.value < |docs| && docs[r.value].id == id && docs[r.value].owner == owner
    ensures r.Some? ==> forall j :: 0 <= j < r.value ==> !(docs[j].id == id && docs[j].owner == owner)
    ensures r.None? <==> forall j :: 0 <= j < |docs| ==> !(docs[j].id == id && docs[j].owner == owner)
  {
    if docs == [] then None
    else if docs[0].id == id && docs[0].owner == owner then Some(0)
    else match FindIndex(docs[1..], id, owner)
      case None => None
      case Some(i) => Some(i + 1)
  }

  /**
    With unique ids, a document owned by `other` is invisible to every other owner:
    looking its id up on their behalf finds nothing.
  */
  lemma ForeignIdNotFound(docs: seq<ExpenseDoc>, k: nat, owner: string)
    requires UniqueIds(docs)
    requires k < |docs| && docs[k].owner != owner
    ensures FindIndex(docs, docs[k].id, owner).None?
  {
  }

  /** `.sort({ date: -1 })`: dates never increase along the sequence. */
  predicate NewestFirst(s: seq<ExpenseDoc>)
  {
    forall i, j :: 0 <= i < j < |s| ==> s[i].date >= s[j].date
  }

  /** Inserts `x` before the first element that is not newer than it. */
  function InsertByDate(x: ExpenseDoc, s: seq<ExpenseDoc>): (r: seq<ExpenseDoc>)
    requires NewestFirst(s)
    ensures NewestFirst(r)
    ensures |r| == |s| + 1
    ensures multiset(r) == multiset(s) + multiset{x}
  {
    if s == [] || x.date >= s[0].date then
      ConsNewest(x, s);
      [x] + s
    else
      var rest := InsertByDate(x, s[1..]);
      assert s == [s[0]] + s[1..];
      NotNewerThanHead(x, s, rest);
      ConsNewest(s[0], rest);
      [s[0]] + rest
  }

  /** A document no older than everything in a newest-first sequence can go in front of it. */
  lemma ConsNewest(h: ExpenseDoc, s: seq<ExpenseDoc>)
    requires NewestFirst(s)
    requires s == [] || h.date >= s[0].date || forall k :: 0 <= k < |s| ==> s[k].date <= h.date
    ensures NewestFirst([h] + s)
  {
    var r := [h] + s;
    forall i, j | 0 <= i < j < |r| ensures r[i].date >= r[j].date {
      assert r[j] == s[j - 1];
      if i > 0 {
        assert r[i] == s[i - 1];
      } else if s != [] && h.date >= s[0].date {
        assert s[0].date >= s[j - 1].date;
      }
    }
  }

  /** Every element of the insertion into the tail is no newer than the head. */
  lemma NotNewerThanHead(x: ExpenseDoc, s: seq<ExpenseDoc>, rest: seq<ExpenseDoc>)
    requires NewestFirst(s) && s != [] && x.date < s[0].date
    requires multiset(rest) == multiset(s[1..]) + multiset{x}
    ensures forall k :: 0 <= k < |rest| ==> rest[k].date <= s[0].date
  {
    forall k | 0 <= k < |rest| ensures rest[k].date <= s[0].date {
      assert rest[k] in multiset(rest);
      if rest[k] != x {
        assert rest[k] in multiset(s[1..]);
        var j :| 0 <= j < |s[1..]| && s[1..][j] == rest[k];
        assert s[j + 1] == rest[k];
      }
    }
  }

  /** Sorts newest first, keeping every document exactly as many times as it occurs. */
  function SortNewestFirst(s: seq<ExpenseDoc>): (r: seq<ExpenseDoc>)
    ensures NewestFirst(r)
    ensures |r| == |s|
    ensures multiset(r) == multiset(s)
  {
    if s == [] then []
    else
      assert s == [s[0]] + s[1..];
      InsertByDate(s[0], SortNewestFirst(s[1..]))
  }

  /** In a newest-first sequence, whatever lies past position `n` is no newer than anything before it. */
  lemma CutKeepsNewest(sorted: seq<ExpenseDoc>, n: nat)
    requires NewestFirst(sorted) && n <= |sorted|
    ensures forall x, y :: x in sorted[n..] && y in sorted[..n] ==> x.date <= y.date
  {
    forall x, y | x in sorted[n..] && y in sorted[..n] ensures x.date <= y.date {
      var a :| 0 <= a < |sorted| - n && sorted[n..][a] == x;
      var b :| 0 <= b < n && sorted[..n][b] == y;
      assert sorted[b] == y && sorted[n + a] == x;
    }
  }

  /**
    Taking the first `n` of a newest-first arrangement of `mine`: what is taken comes from
    `mine`, stays newest first, and nothing left behind is newer than anything taken.
  */
  lemma TakeNewest(mine: seq<ExpenseDoc>, sorted: seq<ExpenseDoc>, n: nat)
    requires NewestFirst(sorted) && multiset(sorted) == multiset(mine) && n <= |sorted|
    ensures NewestFirst(sorted[..n])
    ensures multiset(sorted[..n]) <= multiset(mine)
    ensures forall x :: x in sorted[..n] ==> x in mine
    ensures forall x, y :: x in mine && x !in sorted[..n] && y in sorted[..n] ==> x.date <= y.date
  {
    var r := sorted[..n];
    assert sorted == r + sorted[n..];
    assert multiset(sorted) == multiset(r) + multiset(sorted[n..]);
    forall x | x in r ensures x in mine {
      assert x in multiset(sorted);
    }
    forall x, y | x in mine && x !in r && y in r ensures x.date <= y.date {
      assert x in multiset(sorted);
      CutKeepsNewest(sorted, n);
    }
  }

  /**
    GET /: the owner's documents newest first, at most `ListLimit` of them;
    a document of the owner's that is left out is no newer than any that is listed.
  */
  function ListFor(docs: seq<ExpenseDoc>, owner: string): (r: seq<ExpenseDoc>)
    ensures |r| == Min(ListLimit, |OwnedBy(docs, owner)|)
    ensures NewestFirst(r)
    ensures forall x :: x in r ==> x in docs && x.owner == owner
    ensures multiset(r) <= multiset(OwnedBy(docs, owner))
    ensures forall x, y :: x in OwnedBy(docs, owner) && x !in r && y in r ==> x.date <= y.date
  {
    var mine := OwnedBy(docs, owner);
    var sorted := SortNewestFirst(mine);
    var n := Min(ListLimit, |sorted|);
    TakeNewest(mine, sorted, n);
    sorted[..n]
  }

  /** Whether a document falls in the requested window, both ends inclusive. */
  predicate InWindow(x: ExpenseDoc, owner: string, start: int, end: int)
  {
    x.owner == owner && start <= x.date <= end
  }

  /** GET /range/:startDate/:endDate: every document of the owner's inside the window, newest first, uncapped. */
  function RangeFor(docs: seq<ExpenseDoc>, owner: string, start: int, end: int): (r: seq<ExpenseDoc>)
    ensures NewestFirst(r)
    ensures forall x :: multiset(r)[x] == if InWindow(x, owner, start, end) then multiset(docs)[x] else 0
    ensures forall x :: x in r <==> x in docs && InWindow(x, owner, start, end)
  {
    var matching := Filter(docs, (x: ExpenseDoc) => InWindow(x, owner, start, end));
    var r := SortNewestFirst(matching);
    assert forall x :: x in r <==> x in matching by {
      forall x ensures x in r <==> x in matching {
        assert x in r <==> x in multiset(r);
      }
    }
    r
  }

  /** A document stored for somebody else never shows up in the owner's date range. */
  lemma RangeIgnoresOthers(docs: seq<ExpenseDoc>, x: ExpenseDoc, owner: string, start: int, end: int)
    requires x.owner != owner
    ensures multiset(RangeFor(docs + [x], owner, start, end)) == multiset(RangeFor(docs, owner, start, end))
  {
    var a := RangeFor(docs + [x], owner, start, end);
    var b := RangeFor(docs, owner, start, end);
    forall y ensures multiset(a)[y] == multiset(b)[y] {
      assert multiset(docs + [x]) == multiset(docs) + multiset{x};
    }
  }

  // ---------------------------------------------------------------------------
  // GET /stats/summary

  /** One `byCategory` entry: a category name and the summed amounts filed under it. */
  datatype CategoryTotal = CategoryTotal(name: string, total: int)

  /** The body of GET /stats/summary. `byCategory` keeps the order in which categories first occur. */
  datatype Summary = Summary(
    totalExpense: int,
    totalIncome: int,
    balance: int,
    byCategory: seq<CategoryTotal>,
    count: nat)

  /** `.reduce((sum, e) => sum + e.amount, 0)`, folding from the left. */
  function SumAmounts(s: seq<ExpenseDoc>): int
  {
    if s == [] then 0 else SumAmounts(s[..|s| - 1]) + s[|s| - 1].amount
  }

  /** `e => e.type === k`. */
  function OfKind(k: Kind): ExpenseDoc -> bool
  {
    (x: ExpenseDoc) => x.kind == k
  }

  /** The summed amounts of one kind, in one pass: what `.filter(e => e.type === k).reduce(...)` yields. */
  function TotalOf(s: seq<ExpenseDoc>, k: Kind): (r: int)
    ensures r == SumAmounts(Filter(s, OfKind(k)))
  {
    if s == [] then 0
    else
      var init, last := s[..|s| - 1], s[|s| - 1];
      assert s == init + [last];
      FilteredSumStep(init, last, k);
      TotalOf(init, k) + (if last.kind == k then last.amount else 0)
  }

  /** Summing a concatenation sums each part. */
  lemma {:induction false} SumAmountsConcat(a: seq<ExpenseDoc>, b: seq<ExpenseDoc>)
    ensures SumAmounts(a + b) == SumAmounts(a) + SumAmounts(b)
  {
    if b == [] {
      assert a + b == a;
    } else {
      assert (a + b)[..|a + b| - 1] == a + b[..|b| - 1];
      SumAmountsConcat(a, b[..|b| - 1]);
    }
  }

  /** Filtering and then summing, one more document at the end. */
  lemma FilteredSumStep(init: seq<ExpenseDoc>, last: ExpenseDoc, k: Kind)
    ensures SumAmounts(Filter(init + [last], OfKind(k)))
      == SumAmounts(Filter(init, OfKind(k))) + (if last.kind == k then last.amount else 0)
  {
    var p := OfKind(k);
    FilterConcat(init, [last], p);
    assert [last][1..] == [];
    assert Filter([last], p) == if last.kind == k then [last] else [];
    assert [last][..0] == [];
    SumAmountsConcat(Filter(init, p), Filter([last], p));
  }

  /** How many documents there are of one kind. */
  function CountOf(s: seq<ExpenseDoc>, k: Kind): nat
  {
    if s == [] then 0
    else CountOf(s[..|s| - 1], k) + (if s[|s| - 1].kind == k then 1 else 0)
  }

  /** Reference definition of the balance: income counts up, expense counts down. */
  function Net(s: seq<ExpenseDoc>): int
  {
    if s == [] then 0
    else Net(s[..|s| - 1]) + (if s[|s| - 1].kind == Income then s[|s| - 1].amount else -s[|s| - 1].amount)
  }

  /** The summed amounts of the documents filed under category `c`, whatever their kind. */
  function CategorySum(s: seq<ExpenseDoc>, c: string): int
  {
    if s == [] then 0
    else CategorySum(s[..|s| - 1], c) + (if s[|s| - 1].category == c then s[|s| - 1].amount else 0)
  }

  /** The categories the documents are filed under. */
  function CategoriesOf(s: seq<ExpenseDoc>): set<string>
  {
    set x | x in s :: x.category
  }

  /** The names of the entries. */
  function Names(acc: seq<CategoryTotal>): set<string>
  {
    if acc == [] then {} else {acc[0].name} + Names(acc[1..])
  }

  /** No name has two entries. */
  predicate Distinct(acc: seq<CategoryTotal>)
  {
    acc == [] || (acc[0].name !in Names(acc[1..]) && Distinct(acc[1..]))
  }

  /** `acc[name]` read as a number: the first entry's total, 0 when there is none. */
  function TotalFor(acc: seq<CategoryTotal>, name: string): int
  {
    if acc == [] then 0
    else if acc[0].name == name then acc[0].total
    else TotalFor(acc[1..], name)
  }

  /** The totals of all entries added up. */
  function SumTotals(acc: seq<CategoryTotal>): int
  {
    if acc == [] then 0 else acc[0].total + SumTotals(acc[1..])
  }

  /**
    One step of the `byCategory` reduce: the document's amount is added to the entry
    for its category, which is appended with the amount when it is not there yet.
  */
  function AddTo(acc: seq<CategoryTotal>, x: ExpenseDoc): (r: seq<CategoryTotal>)
    ensures Names(r) == Names(acc) + {x.category}
    ensures forall c :: TotalFor(r, c) == TotalFor(acc, c) + (if c == x.category then x.amount else 0)
    ensures Distinct(acc) ==> Distinct(r)
    ensures SumTotals(r) == SumTotals(acc) + x.amount
  {
    if acc == [] then
      [CategoryTotal(x.category, x.amount)]
    else if acc[0].name == x.category then
      assert ([CategoryTotal(x.category, acc[0].total + x.amount)] + acc[1..])[1..] == acc[1..];
      [CategoryTotal(x.category, acc[0].total + x.amount)] + acc[1..]
    else
      var rest := AddTo(acc[1..], x);
      assert ([acc[0]] + rest)[1..] == rest;
      [acc[0]] + rest
  }

  /**
    The `byCategory` reduce over `s`: one entry per category of `s`, holding the
    summed amounts of that category across both kinds; the entries add up to the
    summed amounts of `s`.
  */
  function GroupByCategory(s: seq<ExpenseDoc>): (r: seq<CategoryTotal>)
    ensures Distinct(r)
    ensures Names(r) == CategoriesOf(s)
    ensures forall c :: TotalFor(r, c) == CategorySum(s, c)
    ensures SumTotals(r) == SumAmounts(s)
  {
    if s == [] then []
    else
      var init := s[..|s| - 1];
      assert forall x :: x in s <==> x in init || x == s[|s| - 1] by {
        assert s == init + [s[|s| - 1]];
      }
      AddTo(GroupByCategory(init), s[|s| - 1])
  }

  // The reduce above runs on a plain `{}` accumulator, whose reads fall through to
  // `Object.prototype`. The members below model that lookup as written.

  /** Property names a plain `{}` inherits from `Object.prototype` whose values are functions. */
  const InheritedNames: set<string> := {
    "constructor", "hasOwnProperty", "isPrototypeOf", "propertyIsEnumerable", "toString",
    "valueOf", "toLocaleString", "__defineGetter__", "__defineSetter__", "__lookupGetter__",
    "__lookupSetter__"}

  /** A category name that reads as a missing own property of `{}`. */
  predicate PlainKey(c: string)
  {
    c !in InheritedNames && c != "__proto__"
  }

  /** A property value of the accumulator: a number, or the string that `function + number` yields. */
  datatype Tally = Number(n: int) | Text

  datatype Entry = Entry(name: string, value: Tally)

  /**
    One step of the `byCategory` reduce as written. An inherited function is truthy, so
    it is not reset to 0 and `+=` turns it into a string; assigning a string to
    `__proto__` is ignored, so that category is dropped.
  */
  function AddToAsWritten(acc: seq<Entry>, x: ExpenseDoc): (r: seq<Entry>)
    ensures EntryNames(r) == EntryNames(acc) + (if x.category == "__proto__" then {} else {x.category})
    ensures |r| <= |acc| + 1
  {
    if x.category == "__proto__" then acc
    else if acc == [] then
      [Entry(x.category, if x.category in InheritedNames then Text else Number(x.amount))]
    else if acc[0].name == x.category then
      [Entry(x.category, if acc[0].value.Number? then Number(acc[0].value.n + x.amount) else Text)] + acc[1..]
    else
      [acc[0]] + AddToAsWritten(acc[1..], x)
  }

  /** The property names of the accumulator as written. */
  function EntryNames(acc: seq<Entry>): set<string>
  {
    if acc == [] then {} else {acc[0].name} + EntryNames(acc[1..])
  }

  /** The `byCategory` reduce as written: every category used gets a property, except `__proto__`. */
  function GroupByCategoryAsWritten(s: seq<ExpenseDoc>): (r: seq<Entry>)
    ensures EntryNames(r) == CategoriesOf(s) - {"__proto__"}
  {
    if s == [] then []
    else
      var init := s[..|s| - 1];
      assert CategoriesOf(s) == CategoriesOf(init) + {s[|s| - 1].category} by {
        assert s == init + [s[|s| - 1]];
      }
      AddToAsWritten(GroupByCategoryAsWritten(init), s[|s| - 1])
  }

  /** The entries of the corrected fold, as numeric properties. */
  function AsEntries(acc: seq<CategoryTotal>): (r: seq<Entry>)
    ensures |r| == |acc|
  {
    if acc == [] then [] else [Entry(acc[0].name, Number(acc[0].total))] + AsEntries(acc[1..])
  }

  /** A single document filed under "constructor" does not come out as its amount. */
  lemma ConstructorCategoryCounterexample()
    ensures var d := ExpenseDoc("e1", "u1", 500, "constructor", 0, "", Expense);
      && GroupByCategoryAsWritten([d]) == [Entry("constructor", Text)]
      && GroupByCategory([d]) == [CategoryTotal("constructor", 500)]
  {
    var d := ExpenseDoc("e1", "u1", 500, "constructor", 0, "", Expense);
    assert [d][..0] == [];
  }

  lemma {:induction false} AddToAgrees(acc: seq<CategoryTotal>, x: ExpenseDoc)
    requires PlainKey(x.category)
    ensures AddToAsWritten(AsEntries(acc), x) == AsEntries(AddTo(acc, x))
  {
    if acc != [] && acc[0].name != x.category {
      AddToAgrees(acc[1..], x);
    }
  }

  /** On category names that are not `Object.prototype` members, the reduce as written and the corrected fold agree. */
  lemma {:induction false} GroupByCategoryAgrees(s: seq<ExpenseDoc>)
    requires forall i :: 0 <= i < |s| ==> PlainKey(s[i].category)
    ensures GroupByCategoryAsWritten(s) == AsEntries(GroupByCategory(s))
  {
    if s != [] {
      GroupByCategoryAgrees(s[..|s| - 1]);
      AddToAgrees(GroupByCategory(s[..|s| - 1]), s[|s| - 1]);
    }
  }

  /** The summary handler: totals per kind, their difference, the per-category sums and the count. */
  function Summarize(docs: seq<ExpenseDoc>, owner: string): (r: Summary)
    ensures r.totalExpense == SumAmounts(Filter(OwnedBy(docs, owner), OfKind(Expense)))
    ensures r.totalIncome == SumAmounts(Filter(OwnedBy(docs, owner), OfKind(Income)))
  {
    var mine := OwnedBy(docs, owner);
    var totalExpense := TotalOf(mine, Expense);
    var totalIncome := TotalOf(mine, Income);
    Summary(totalExpense, totalIncome, totalIncome - totalExpense, GroupByCategory(mine), |mine|)
  }

  /** Income minus expense is the signed sum of the amounts. */
  lemma {:induction false} NetIsIncomeMinusExpense(s: seq<ExpenseDoc>)
    ensures Net(s) == TotalOf(s, Income) - TotalOf(s, Expense)
  {
    if s != [] {
      NetIsIncomeMinusExpense(s[..|s| - 1]);
    }
  }

  /** Every document is of exactly one kind, so the two kind totals add up to all amounts. */
  lemma {:induction false} KindTotalsAddUp(s: seq<ExpenseDoc>)
    ensures TotalOf(s, Expense) + TotalOf(s, Income) == SumAmounts(s)
    ensures CountOf(s, Expense) + CountOf(s, Income) == |s|
  {
    if s != [] {
      KindTotalsAddUp(s[..|s| - 1]);
    }
  }

  /**
    What the summary promises about the owner's documents `mine`: the balance is their
    signed sum, the count covers both kinds (and is not capped), `byCategory` has one
    entry per category of theirs holding that category's sum, and its entries add up
    to total expense plus total income.
  */
  lemma SummaryMeaning(docs: seq<ExpenseDoc>, owner: string)
    ensures var s := Summarize(docs, owner); var mine := OwnedBy(docs, owner);
      && s.balance == Net(mine)
      && s.count == CountOf(mine, Expense) + CountOf(mine, Income)
      && s.count == |mine|
      && Distinct(s.byCategory)
      && Names(s.byCategory) == CategoriesOf(mine)
      && (forall c :: TotalFor(s.byCategory, c) == CategorySum(mine, c))
      && SumTotals(s.byCategory) == s.totalExpense + s.totalIncome
  {
    var mine := OwnedBy(docs, owner);
    NetIsIncomeMinusExpense(mine);
    KindTotalsAddUp(mine);
  }

  /** A document stored for somebody else changes neither the owner's list nor their summary. */
  lemma OthersInvisible(docs: seq<ExpenseDoc>, x: ExpenseDoc, owner: string)
    requires x.owner != owner
    ensures ListFor(docs + [x], owner) == ListFor(docs, owner)
    ensures Summarize(docs + [x], owner) == Summarize(docs, owner)
  {
    OthersLeaveListAlone(docs, x, owner);
    OthersLeaveSummaryAlone(docs, x, owner);
  }

  /** A document stored for somebody else does not change the owner's list. */
  lemma OthersLeaveListAlone(docs: seq<ExpenseDoc>, x: ExpenseDoc, owner: string)
    requires x.owner != owner
    ensures ListFor(docs + [x], owner) == ListFor(docs, owner)
  {
    OwnedByIgnoresOthers(docs, x, owner);
  }

  /** A document stored for somebody else does not change the owner's summary. */
  lemma OthersLeaveSummaryAlone(docs: seq<ExpenseDoc>, x: ExpenseDoc, owner: string)
    requires x.owner != owner
    ensures Summarize(docs + [x], owner) == Summarize(docs, owner)
  {
    OwnedByIgnoresOthers(docs, x, owner);
  }
}
