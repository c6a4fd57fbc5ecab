/**
  The add/edit transaction form: its field state, the edit prefill, the category list
  offered for each type, and the submit handler. The submit handler checks the amount,
  then the category, and only then dispatches a create or an update.
*/
module ExpenseForm {
  import opened Common
  import opened ExpenseSchema
  import ExpenseRoutes

  /** `ExpenseFormData`: the amount in minor units, the date as a 'YYYY-MM-DD' string. */
  datatype FormData = FormData(amount: int, category: string, date: string, notes: string)

  /** One `onChange` event: the input's `name` and its new value. */
  datatype Change =
    | AmountInput(amount: int)
    | CategoryInput(category: string)
    | DateInput(date: string)
    | NotesInput(notes: string)

  /** `{ ...formData, [e.target.name]: e.target.value }`. */
  function ApplyChange(f: FormData, c: Change): (r: FormData)
    ensures c.AmountInput? ==> r == f.(amount := c.amount)
    ensures c.CategoryInput? ==> r == f.(category := c.category)
    ensures c.DateInput? ==> r == f.(date := c.date)
    ensures c.NotesInput? ==> r == f.(notes := c.notes)
  {
    match c
    case AmountInput(a) => FormData(a, f.category, f.date, f.notes)
    case CategoryInput(cat) => FormData(f.amount, cat, f.date, f.notes)
    case DateInput(d) => FormData(f.amount, f.category, d, f.notes)
    case NotesInput(n) => FormData(f.amount, f.category, f.date, n)
  }

  /** The input a change is addressed to. */
  function Target(c: Change): nat
  {
    match c
    case AmountInput(_) => 0
    case CategoryInput(_) => 1
    case DateInput(_) => 2
    case NotesInput(_) => 3
  }

  /**
    Changes to different inputs commute, and of two changes to the same input the later
    one wins: the form holds the last value typed into each input.
  */
  lemma {:induction false} ChangesCompose(f: FormData, c1: Change, c2: Change)
    ensures Target(c1) != Target(c2) ==> ApplyChange(ApplyChange(f, c1), c2) == ApplyChange(ApplyChange(f, c2), c1)
    ensures Target(c1) == Target(c2) ==> ApplyChange(ApplyChange(f, c1), c2) == ApplyChange(f, c2)
  {
  }

  /** `toISOString().split('T')[0]`: the part of an ISO timestamp before its first 'T'. */
  function DatePart(iso: string): (r: string)
    ensures |r| <= |iso| && r == iso[..|r|]
    ensures forall i :: 0 <= i < |r| ==> r[i] != 'T'
    ensures |r| == |iso| || iso[|r|] == 'T'
  {
    if iso == [] || iso[0] == 'T' then [] else [iso[0]] + DatePart(iso[1..])
  }

  /** A day followed by 'T' and a time of day is cut back to the day. */
  lemma {:induction false} DatePartOfTimestamp(day: string, time: string)
    requires forall i :: 0 <= i < |day| ==> day[i] != 'T'
    ensures DatePart(day + "T" + time) == day
  {
    var s := day + "T" + time;
    if day == [] {
      assert s[0] == 'T';
    } else {
      assert s[0] == day[0] && s[1..] == day[1..] + "T" + time;
      DatePartOfTimestamp(day[1..], time);
    }
  }

  /** Cutting a date that has already been cut changes nothing. */
  lemma {:induction false} DatePartIdempotent(iso: string)
    ensures DatePart(DatePart(iso)) == DatePart(iso)
  {
    var r := DatePart(iso);
    assert r[..|r|] == r;
  }

  const ExpenseCategories: seq<string> := [
    "Food & Dining", "Transportation", "Shopping", "Entertainment", "Bills & Utilities",
    "Health & Fitness", "Education", "Travel", "Other"]

  const IncomeCategories: seq<string> := ["Salary", "Business", "Freelance", "Investment", "Gift", "Other"]

  /** The categories the select offers for the chosen type. */
  function CategoryOptions(k: Kind): (r: seq<string>)
    ensures k == Expense ==> r == ExpenseCategories
    ensures k == Income ==> r == IncomeCategories
  {
    if k == Expense then ExpenseCategories else IncomeCategories
  }

  /** The lists are not disjoint: 'Other' is offered for both types, and it is the only such name. */
  lemma SharedCategories()
    ensures forall c :: c in ExpenseCategories && c in IncomeCategories <==> c == "Other"
  {
  }

  /** No list repeats a name, so the names serve as React keys. */
  lemma OptionsDistinct(k: Kind)
    ensures forall i, j :: 0 <= i < j < |CategoryOptions(k)| ==> CategoryOptions(k)[i] != CategoryOptions(k)[j]
  {
  }

  /** Every offered category is non-empty and already trimmed, so the schema stores it unchanged. */
  lemma {:induction false} OptionsAreStorable(k: Kind, c: string)
    requires c in CategoryOptions(k)
    ensures c != "" && Trim(c) == c
  {
    var i :| 0 <= i < |CategoryOptions(k)| && CategoryOptions(k)[i] == c;
    if k == Expense {
      ExpenseOptionTrimmed(i);
    } else {
      IncomeOptionTrimmed(i);
    }
    TrimmedIsFixed(c);
  }

  /** Each expense category is non-empty and trimmed. */
  lemma ExpenseOptionTrimmed(i: nat)
    requires i < |ExpenseCategories|
    ensures ExpenseCategories[i] != "" && Trimmed(ExpenseCategories[i])
  {
  }

  /** Each income category is non-empty and trimmed. */
  lemma IncomeOptionTrimmed(i: nat)
    requires i < |IncomeCategories|
    ensures IncomeCategories[i] != "" && Trimmed(IncomeCategories[i])
  {
  }

  const AmountMessage := "Amount must be greater than 0"
  const CategoryMessage := "Please select a category"
  const FallbackMessage := "Failed to save expense"

  /** The client-side checks of `handleSubmit`, amount first: the error they set, if any. */
  function Validate(f: FormData): (r: Option<string>)
    ensures r == Some(AmountMessage) <==> f.amount <= 0
    ensures r == Some(CategoryMessage) <==> f.amount > 0 && f.category == ""
    ensures r.None? <==> f.amount > 0 && f.category != ""
  {
    if f.amount <= 0 then Some(AmountMessage)
    else if f.category == "" then Some(CategoryMessage)
    else None
  }

  /**
    Form data that passes the client checks also passes the route's presence and sign
    checks, and the other way round: on a filled-in form the two agree, although an amount
    of 0 is reported with different messages.
  */
  lemma ClientCheckMatchesRoute(f: FormData)
    ensures Validate(f).None? <==> ExpenseRoutes.CreateCheck(Some(f.amount), Some(f.category)).None?
  {
  }

  /** `{ ...formData, type }`: what the form sends. */
  datatype Submission = Submission(data: FormData, kind: Kind)

  /** The service call a submit makes. */
  datatype ServiceCall = CreateCall(sent: Submission) | UpdateCall(id: string, sent: Submission)

  /** How the awaited service call ended; a failure carries `err.response?.data?.message`. */
  datatype SaveOutcome = Saved | SaveFailed(message: Option<string>)

  /** `err.response?.data?.message || 'Failed to save expense'`. */
  function FailureText(message: Option<string>): (r: string)
    ensures r != ""
    ensures message.Some? && message.value != "" ==> r == message.value
    ensures !(message.Some? && message.value != "") ==> r == FallbackMessage
  {
    if message.Some? && message.value != "" then message.value else FallbackMessage
  }

  /** `updateExpense(expense._id, …)` when editing, `createExpense(…)` otherwise. */
  function CallFor(editing: Option<ExpenseDoc>, s: Submission): (r: ServiceCall)
    ensures editing.Some? <==> r.UpdateCall?
    ensures r.sent == s
    ensures r.UpdateCall? ==> r.id == editing.value.id
  {
    if editing.Some? then UpdateCall(editing.value.id, s) else CreateCall(s)
  }

  /** The state of one mounted form. */
  class FormState {
    /** The `expense` prop: the transaction being edited, or none for a new one. */
    const editing: Option<ExpenseDoc>
    var data: FormData
    var kind: Kind
    var loading: bool
    var error: string
    var alert: Option<string>
    /** Whether `onClose` has been called. */
    var closed: bool

    /** The initial state: amount 0, no category, today's date, no notes, type 'expense'. */
    constructor (editing: Option<ExpenseDoc>, nowIso: string)
      ensures this.editing == editing
      ensures data == FormData(0, "", DatePart(nowIso), "") && kind == Expense
      ensures !loading && error == "" && alert == None && !closed
    {
      this.editing := editing;
      data := FormData(0, "", DatePart(nowIso), "");
      kind := Expense;
      loading := false;
      error := "";
      alert := None;
      closed := false;
    }

    /**
      The effect on `[expense]`: when editing, the fields and the type are copied from the
      transaction and its date is cut to the day. `iso` is `new Date(d).toISOString()`.
    */
    method Prefill(iso: int -> string)
      modifies this
      ensures editing.None? ==> data == old(data) && kind == old(kind)
      ensures editing.Some? ==>
        var e := editing.value;
        data == FormData(e.amount, e.category, DatePart(iso(e.date)), e.notes) && kind == e.kind
      ensures loading == old(loading) && error == old(error) && alert == old(alert) && closed == old(closed)
    {
      if editing.Some? {
        var e := editing.value;
        data := FormData(e.amount, e.category, DatePart(iso(e.date)), e.notes);
        kind := e.kind;
      }
    }

    /** `handleChange`: only the input the event names changes. */
    method HandleChange(c: Change)
      modifies this
      ensures data == ApplyChange(old(data), c)
      ensures kind == old(kind) && loading == old(loading) && error == old(error)
      ensures alert == old(alert) && closed == old(closed)
    {
      data := ApplyChange(data, c);
    }

    /** The type buttons; the chosen category is kept even if the other list lacks it. */
    method SelectType(k: Kind)
      modifies this
      ensures kind == k
      ensures data == old(data) && loading == old(loading) && error == old(error)
      ensures alert == old(alert) && closed == old(closed)
    {
      kind := k;
    }

    /**
      `handleSubmit`. `outcome` stands for how the awaited service call ends. A failed
      client check sets its message and calls nothing. Otherwise the one call made is
      returned: a save closes the form after its alert, and a failure shows the server's
      message or the fallback. `loading` ends false on every path.
    */
    method HandleSubmit(outcome: SaveOutcome) returns (call: Option<ServiceCall>)
      modifies this
      ensures !loading
      ensures data == old(data) && kind == old(kind)
      ensures Validate(old(data)).Some? ==>
        call.None? && error == Validate(old(data)).value && alert == old(alert) && closed == old(closed)
      ensures Validate(old(data)).None? ==>
        call == Some(CallFor(editing, Submission(old(data), old(kind))))
      ensures Validate(old(data)).None? && outcome.Saved? ==>
        error == "" && closed
        && alert == Some(if editing.Some? then "Expense updated successfully!" else "Expense added successfully!")
      ensures Validate(old(data)).None? && outcome.SaveFailed? ==>
        error == FailureText(outcome.message) && alert == old(alert) && closed == old(closed)
    {
      error := "";
      loading := true;
      if data.amount <= 0 {
        error := AmountMessage;
        loading := false;
        return None;
      }
      if data.category == "" {
        error := CategoryMessage;
        loading := false;
        return None;
      }
      var sent := Submission(data, kind);
      if editing.Some? {
        call := Some(UpdateCall(editing.value.id, sent));
      } else {
        call := Some(CreateCall(sent));
      }
      match outcome {
        case Saved =>
          alert := Some(if editing.Some? then "Expense updated successfully!" else "Expense added successfully!");
          closed := true;
        case SaveFailed(message) =>
          error := FailureText(message);
      }
      loading := false;
    }
  }
}
