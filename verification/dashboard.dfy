/**
  The dashboard: the five most recent transactions, the pie-chart slices derived from
  the summary's `byCategory`, the colour of each slice, and the loading and redirect
  state of its fetch.
*/
module Dashboard {
  import opened Common
  import opened ExpenseSchema
  import Ledger

  const RecentLimit := 5

  /** `expenses.slice(0, 5)`: the first five fetched transactions in their order, or all of them when fewer. */
  function Recent(s: seq<ExpenseDoc>): (r: seq<ExpenseDoc>)
    ensures |r| == Min(RecentLimit, |s|)
    ensures r == s[..|r|]
  {
    if |s| <= RecentLimit then s else s[..RecentLimit]
  }

  /**
    Fed from the list route, the recent transactions are the owner's newest: they are
    the owner's, newest first, and no transaction of the owner's that is left out is
    newer than one that is shown.
  */
  lemma RecentAreNewest(docs: seq<ExpenseDoc>, owner: string)
    ensures var r := Recent(Ledger.ListFor(docs, owner));
      && Ledger.NewestFirst(r)
      && (forall x :: x in r ==> x in docs && x.owner == owner)
      && (forall x, y :: x in Ledger.OwnedBy(docs, owner) && x !in r && y in r ==> x.date <= y.date)
  {
    var listed := Ledger.ListFor(docs, owner);
    var r := Recent(listed);
    PrefixOfNewest(listed, |r|);
    assert forall y :: y in r ==> y in listed;
  }

  /** A prefix of a newest-first sequence is newest first, and what follows it is no newer. */
  lemma PrefixOfNewest(s: seq<ExpenseDoc>, n: nat)
    requires Ledger.NewestFirst(s) && n <= |s|
    ensures Ledger.NewestFirst(s[..n])
    ensures forall x, y :: x in s && x !in s[..n] && y in s[..n] ==> x.date <= y.date
  {
    forall x, y | x in s && x !in s[..n] && y in s[..n] ensures x.date <= y.date {
      var a :| 0 <= a < |s| && s[a] == x;
      var b :| 0 <= b < n && s[..n][b] == y;
      assert s[b] == y;
    }
  }

  /** One pie slice: `{ name, value }`. */
  datatype Slice = Slice(name: string, value: int)

  /** `Object.entries(byCategory).map(([name, value]) => ({ name, value }))`, entry order kept. */
  function Slices(acc: seq<Ledger.CategoryTotal>): (r: seq<Slice>)
    ensures |r| == |acc|
    ensures forall i :: 0 <= i < |r| ==> r[i].name == acc[i].name && r[i].value == acc[i].total
  {
    if acc == [] then [] else [Slice(acc[0].name, acc[0].total)] + Slices(acc[1..])
  }

  /** `categoryData`: one slice per `byCategory` entry, none while there is no summary. */
  function CategoryData(summary: Option<Ledger.Summary>): (r: seq<Slice>)
    ensures summary.None? ==> r == []
    ensures summary.Some? ==> |r| == |summary.value.byCategory|
    ensures summary.Some? ==>
      forall i :: 0 <= i < |r| ==>
        r[i].name == summary.value.byCategory[i].name && r[i].value == summary.value.byCategory[i].total
  {
    if summary.None? then [] else Slices(summary.value.byCategory)
  }

  /** Every entry's name is one of the names. */
  lemma {:induction false} NameOfEntry(acc: seq<Ledger.CategoryTotal>, i: nat)
    requires i < |acc|
    ensures acc[i].name in Ledger.Names(acc)
  {
    if i > 0 {
      NameOfEntry(acc[1..], i - 1);
    }
  }

  /** Every name belongs to some entry. */
  lemma {:induction false} EntryOfName(acc: seq<Ledger.CategoryTotal>, c: string) returns (i: nat)
    requires c in Ledger.Names(acc)
    ensures i < |acc| && acc[i].name == c
  {
    if acc[0].name == c {
      i := 0;
    } else {
      var j := EntryOfName(acc[1..], c);
      i := j + 1;
    }
  }

  /** In a distinct accumulator each entry is the one `TotalFor` reads, and no two entries share a name. */
  lemma {:induction false} DistinctEntries(acc: seq<Ledger.CategoryTotal>, i: nat)
    requires Ledger.Distinct(acc) && i < |acc|
    ensures Ledger.TotalFor(acc, acc[i].name) == acc[i].total
    ensures forall j :: i < j < |acc| ==> acc[j].name != acc[i].name
  {
    if i > 0 {
      DistinctEntries(acc[1..], i - 1);
      if acc[0].name == acc[i].name {
        NameOfEntry(acc[1..], i - 1);
        assert false;
      }
    } else {
      forall j | 0 < j < |acc| ensures acc[j].name != acc[0].name {
        NameOfEntry(acc[1..], j - 1);
      }
    }
  }

  /** The names of the slices. */
  function SliceNames(r: seq<Slice>): set<string>
  {
    set s | s in r :: s.name
  }

  /** The slices of an accumulator are named by exactly its entry names. */
  lemma SlicesNamed(acc: seq<Ledger.CategoryTotal>)
    ensures SliceNames(Slices(acc)) == Ledger.Names(acc)
  {
    var r := Slices(acc);
    forall c ensures c in SliceNames(r) <==> c in Ledger.Names(acc) {
      if c in SliceNames(r) {
        var s :| s in r && s.name == c;
        var i :| 0 <= i < |r| && r[i] == s;
        NameOfEntry(acc, i);
      }
      if c in Ledger.Names(acc) {
        var i := EntryOfName(acc, c);
        assert r[i] in r;
      }
    }
  }

  /** The slices of a distinct accumulator have pairwise different names, each valued at its entry's total. */
  lemma SlicesOfDistinct(acc: seq<Ledger.CategoryTotal>)
    requires Ledger.Distinct(acc)
    ensures var r := Slices(acc);
      && (forall i, j :: 0 <= i < j < |r| ==> r[i].name != r[j].name)
      && (forall i :: 0 <= i < |r| ==> r[i].value == Ledger.TotalFor(acc, r[i].name))
  {
    var r := Slices(acc);
    forall i | 0 <= i < |r|
      ensures r[i].value == Ledger.TotalFor(acc, r[i].name)
      ensures forall j :: i < j < |r| ==> r[i].name != r[j].name
    {
      DistinctEntries(acc, i);
    }
  }

  /**
    The chart drawn from the owner's summary has one slice per category the owner has
    used, no category twice, and each slice's value is that category's summed amounts
    over both kinds. It is empty, showing 'No expense data available', exactly when the
    owner has no transactions.
  */
  lemma ChartMatchesLedger(docs: seq<ExpenseDoc>, owner: string)
    ensures var r := CategoryData(Some(Ledger.Summarize(docs, owner)));
      var mine := Ledger.OwnedBy(docs, owner);
      && SliceNames(r) == Ledger.CategoriesOf(mine)
      && (forall i, j :: 0 <= i < j < |r| ==> r[i].name != r[j].name)
      && (forall i :: 0 <= i < |r| ==> r[i].value == Ledger.CategorySum(mine, r[i].name))
      && (r == [] <==> mine == [])
  {
    Ledger.SummaryMeaning(docs, owner);
    SlicesOfAccumulator(Ledger.Summarize(docs, owner).byCategory, Ledger.OwnedBy(docs, owner));
  }

  /** The slices of an accumulator that is distinct, names the categories of `mine` and totals them. */
  lemma SlicesOfAccumulator(acc: seq<Ledger.CategoryTotal>, mine: seq<ExpenseDoc>)
    requires Ledger.Distinct(acc) && Ledger.Names(acc) == Ledger.CategoriesOf(mine)
    requires forall c :: Ledger.TotalFor(acc, c) == Ledger.CategorySum(mine, c)
    ensures var r := Slices(acc);
      && SliceNames(r) == Ledger.CategoriesOf(mine)
      && (forall i, j :: 0 <= i < j < |r| ==> r[i].name != r[j].name)
      && (forall i :: 0 <= i < |r| ==> r[i].value == Ledger.CategorySum(mine, r[i].name))
      && (r == [] <==> mine == [])
  {
    SlicesNamed(acc);
    SlicesOfDistinct(acc);
    if mine != [] {
      assert mine[0].category in Ledger.CategoriesOf(mine);
      var i := EntryOfName(acc, mine[0].category);
    }
  }

  /** `COLORS`. */
  const Colours: seq<string> := ["#0088FE", "#00C49F", "#FFBB28", "#FF8042", "#8884D8", "#82ca9d"]

  /** `COLORS[index % COLORS.length]`: slice `i`'s fill, always one of the palette. */
  function SliceColour(i: nat): (c: string)
    ensures c in Colours
  {
    Colours[i % |Colours|]
  }

  /** The palette repeats every six slices, and neighbouring slices never share a colour. */
  lemma ColoursCycle(i: nat)
    ensures SliceColour(i + |Colours|) == SliceColour(i)
    ensures SliceColour(i) != SliceColour(i + 1)
  {
    var m := i % |Colours|;
    assert (i + |Colours|) % |Colours| == m;
    assert (i + 1) % |Colours| == if m == 5 then 0 else m + 1;
    ColoursDistinct(m, (i + 1) % |Colours|);
  }

  /** No colour appears twice in the palette. */
  lemma ColoursDistinct(a: nat, b: nat)
    requires a < |Colours| && b < |Colours| && a != b
    ensures Colours[a] != Colours[b]
  {
    assert Colours[a][1..3] != Colours[b][1..3] || Colours[a][3..] != Colours[b][3..];
  }

  /** The sign in front of a recent transaction's amount. */
  function AmountSign(k: Kind): (s: string)
    ensures k == Income ==> s == "+"
    ensures k == Expense ==> s == "-"
  {
    if k == Income then "+" else "-"
  }

  // The summary is fetched with `fetch`, which resolves on every status, and its JSON body
  // is stored as the summary without looking at the status. The members below model that.

  /** What `summaryResponse.json()` yields: a summary, or the `{ message }` body of a 401 or 500. */
  datatype SummaryBody = SummaryJson(summary: Ledger.Summary) | MessageJson(message: string)

  /**
    `categoryData` over the summary state as written. `None` is the `TypeError` that
    `Object.entries(undefined)` throws while rendering a message body as a summary.
  */
  function CategoryDataAsWritten(state: Option<SummaryBody>): (r: Option<seq<Slice>>)
    ensures r.None? <==> state.Some? && state.value.MessageJson?
    ensures state.None? ==> r == Some([])
    ensures state.Some? && state.value.SummaryJson? ==> r == Some(CategoryData(Some(state.value.summary)))
  {
    match state
    case None => Some([])
    case Some(SummaryJson(s)) => Some(Slices(s.byCategory))
    case Some(MessageJson(_)) => None
  }

  /** The summary state kept from a response body: only a summary counts, as the `Summary | null` state intends. */
  function SummaryOf(body: SummaryBody): (r: Option<Ledger.Summary>)
    ensures r.Some? <==> body.SummaryJson?
    ensures r.Some? ==> r.value == body.summary
  {
    match body
    case SummaryJson(s) => Some(s)
    case MessageJson(_) => None
  }

  /** An expired or rejected token: the body as written makes rendering throw; kept as no summary, the chart is empty. */
  lemma RejectedTokenCounterexample()
    ensures CategoryDataAsWritten(Some(MessageJson("Token is not valid"))).None?
    ensures CategoryData(SummaryOf(MessageJson("Token is not valid"))) == []
  {
  }

  /** On summary bodies the state as written and the corrected state draw the same chart. */
  lemma SummaryBodiesAgree(body: SummaryBody)
    requires body.SummaryJson?
    ensures CategoryDataAsWritten(Some(body)) == Some(CategoryData(SummaryOf(body)))
  {
  }

  /** How the awaited list request ended; a failure carries `err.response?.status`. */
  datatype ListFetch = Listed(items: seq<ExpenseDoc>) | ListFailed(status: Option<int>)

  /** The state of the dashboard. */
  class DashboardView {
    var summary: Option<Ledger.Summary>
    var recent: seq<ExpenseDoc>
    var loading: bool
    /** Whether `navigate('/login')` has been called. */
    var redirected: bool

    constructor ()
      ensures summary == None && recent == [] && loading && !redirected
    {
      summary := None;
      recent := [];
      loading := true;
      redirected := false;
    }

    /** The start of `fetchData`: loading is on while the requests are out. */
    method BeginFetch()
      modifies this
      ensures loading
      ensures summary == old(summary) && recent == old(recent) && redirected == old(redirected)
    {
      loading := true;
    }

    /**
      The rest of `fetchData`. `summaryFetch` is the summary body, `None` when `fetch`
      itself rejects; `listFetch` is how the list request ended. A list failing with 401
      redirects to the login page. Loading ends false on every path.
    */
    method CompleteFetch(summaryFetch: Option<SummaryBody>, listFetch: ListFetch)
      modifies this
      ensures !loading
      ensures summaryFetch.None? ==> summary == old(summary) && recent == old(recent) && redirected == old(redirected)
      ensures summaryFetch.Some? ==> summary == SummaryOf(summaryFetch.value)
      ensures summaryFetch.Some? && listFetch.Listed? ==>
        recent == Recent(listFetch.items) && redirected == old(redirected)
      ensures summaryFetch.Some? && listFetch.ListFailed? ==>
        recent == old(recent) && redirected == (old(redirected) || listFetch.status == Some(401))
    {
      if summaryFetch.None? {
        loading := false;
        return;
      }
      summary := SummaryOf(summaryFetch.value);
      match listFetch {
        case Listed(items) =>
          recent := Recent(items);
        case ListFailed(status) =>
          if status == Some(401) {
            redirected := true;
          }
      }
      loading := false;
    }
  }
}
