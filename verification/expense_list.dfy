/**
  The transactions page: the fetched list, the type filter over it, the local removal
  after a delete, and the handlers that open and close the edit form.
*/
module ExpenseList {
  import opened Common
  import opened ExpenseSchema

  /** The filter buttons: 'all', 'expense' or 'income'. */
  datatype ViewFilter = All | Only(kind: Kind)

  /** Whether an item passes the filter. */
  predicate Shows(f: ViewFilter, x: ExpenseDoc)
  {
    match f
    case All => true
    case Only(k) => x.kind == k
  }

  /** `filteredExpenses`: the items the filter lets through, in list order. */
  function Visible(s: seq<ExpenseDoc>, f: ViewFilter): (r: seq<ExpenseDoc>)
    ensures f.All? ==> r == s
    ensures forall x :: x in r <==> x in s && Shows(f, x)
    ensures forall x :: multiset(r)[x] == if Shows(f, x) then multiset(s)[x] else 0
  {
    var r := Filter(s, x => Shows(f, x));
    if f.All? then
      FilterAllPass(s, x => Shows(f, x));
      r
    else
      r
  }

  /** The filter keeps list order: filtering a concatenation filters each part. */
  lemma VisibleKeepsOrder(a: seq<ExpenseDoc>, b: seq<ExpenseDoc>, f: ViewFilter)
    ensures Visible(a + b, f) == Visible(a, f) + Visible(b, f)
  {
    FilterConcat(a, b, x => Shows(f, x));
  }

  /** The 'expense' and 'income' views split the list: together they hold every item once. */
  lemma KindViewsPartition(s: seq<ExpenseDoc>)
    ensures multiset(Visible(s, Only(Expense))) + multiset(Visible(s, Only(Income))) == multiset(s)
    ensures |Visible(s, Only(Expense))| + |Visible(s, Only(Income))| == |s|
  {
    var expenses, incomes := Visible(s, Only(Expense)), Visible(s, Only(Income));
    forall x | true
      ensures (multiset(expenses) + multiset(incomes))[x] == multiset(s)[x]
    {
      assert Shows(Only(Expense), x) != Shows(Only(Income), x);
    }
    assert multiset(expenses) + multiset(incomes) == multiset(s);
    assert |multiset(expenses)| + |multiset(incomes)| == |multiset(s)|;
  }

  /** `expenses.filter(e => e._id !== id)`: every item with that id is dropped, order kept. */
  function WithoutId(s: seq<ExpenseDoc>, id: string): (r: seq<ExpenseDoc>)
    ensures forall x :: x in r <==> x in s && x.id != id
    ensures forall x :: multiset(r)[x] == if x.id != id then multiset(s)[x] else 0
    ensures (forall i :: 0 <= i < |s| ==> s[i].id != id) ==> r == s
  {
    var r := Filter(s, (x: ExpenseDoc) => x.id != id);
    if forall i :: 0 <= i < |s| ==> s[i].id != id then
      FilterAllPass(s, (x: ExpenseDoc) => x.id != id);
      r
    else
      r
  }

  /** Removing an id keeps the order of the remaining items. */
  lemma WithoutIdKeepsOrder(a: seq<ExpenseDoc>, b: seq<ExpenseDoc>, id: string)
    ensures WithoutId(a + b, id) == WithoutId(a, id) + WithoutId(b, id)
  {
    FilterConcat(a, b, (x: ExpenseDoc) => x.id != id);
  }

  const ConfirmText := "Are you sure you want to delete this expense?"
  const DeletedAlert := "Expense deleted successfully!"
  const DeleteFailedAlert := "Failed to delete expense"

  /** The state of the transactions page. */
  class ListView {
    var expenses: seq<ExpenseDoc>
    var loading: bool
    var showForm: bool
    var editing: Option<ExpenseDoc>
    var filter: ViewFilter
    var alert: Option<string>

    /** Nothing fetched yet: loading, no form, filter 'all'. */
    constructor ()
      ensures expenses == [] && loading && !showForm && editing == None && filter == All && alert == None
    {
      expenses := [];
      loading := true;
      showForm := false;
      editing := None;
      filter := All;
      alert := None;
    }

    /**
      `fetchExpenses`. `fetched` stands for the awaited list, `None` when the request
      fails: the list is replaced on success and kept on failure; loading ends false.
    */
    method FetchExpenses(fetched: Option<seq<ExpenseDoc>>)
      modifies this
      ensures !loading
      ensures expenses == (if fetched.Some? then fetched.value else old(expenses))
      ensures showForm == old(showForm) && editing == old(editing) && filter == old(filter) && alert == old(alert)
    {
      loading := true;
      if fetched.Some? {
        expenses := fetched.value;
      }
      loading := false;
    }

    /**
      `handleDelete`. `confirmed` is the answer to the confirmation and `deleted` whether
      the service call succeeded. A declined confirmation calls nothing and changes
      nothing; a successful delete drops the id locally; a failed one keeps the list.
    */
    method HandleDelete(id: string, confirmed: bool, deleted: bool) returns (called: bool)
      modifies this
      ensures called == confirmed
      ensures !confirmed ==> expenses == old(expenses) && alert == old(alert)
      ensures confirmed && deleted ==> expenses == WithoutId(old(expenses), id) && alert == Some(DeletedAlert)
      ensures confirmed && !deleted ==> expenses == old(expenses) && alert == Some(DeleteFailedAlert)
      ensures loading == old(loading) && showForm == old(showForm) && editing == old(editing) && filter == old(filter)
    {
      if !confirmed {
        return false;
      }
      called := true;
      if deleted {
        expenses := WithoutId(expenses, id);
        alert := Some(DeletedAlert);
      } else {
        alert := Some(DeleteFailedAlert);
      }
    }

    /** `handleEdit`: the form opens on the chosen transaction. */
    method HandleEdit(e: ExpenseDoc)
      modifies this
      ensures editing == Some(e) && showForm
      ensures expenses == old(expenses) && loading == old(loading) && filter == old(filter) && alert == old(alert)
    {
      editing := Some(e);
      showForm := true;
    }

    /** '+ Add New': the form opens with whatever `editing` holds, which is none after a close. */
    method OpenForm()
      modifies this
      ensures showForm
      ensures expenses == old(expenses) && editing == old(editing) && loading == old(loading)
      ensures filter == old(filter) && alert == old(alert)
    {
      showForm := true;
    }

    /** `handleFormClose`: the form closes, the edited transaction is cleared and the list refetched. */
    method HandleFormClose(fetched: Option<seq<ExpenseDoc>>)
      modifies this
      ensures !showForm && editing == None && !loading
      ensures expenses == (if fetched.Some? then fetched.value else old(expenses))
      ensures filter == old(filter) && alert == old(alert)
    {
      showForm := false;
      editing := None;
      FetchExpenses(fetched);
    }

    /** A filter button. */
    method SetFilter(f: ViewFilter)
      modifies this
      ensures filter == f
      ensures expenses == old(expenses) && loading == old(loading) && showForm == old(showForm)
      ensures editing == old(editing) && alert == old(alert)
    {
      filter := f;
    }
  }
}
