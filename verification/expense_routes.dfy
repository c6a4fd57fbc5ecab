/**
  The transaction routes as handlers over an in-memory collection of documents.
  Every handler receives the owner resolved by the bearer-token gate; the owner is
  never read from the request body, and every lookup matches on id and owner together.
*/
module ExpenseRoutes {
  import opened Common
  import opened ExpenseSchema
  import opened Ledger

  /** A JSON request body of POST / and PUT /:id; `None` is a field the body leaves out. */
  datatype Body = Body(
    amount: Option<int>,
    category: Option<string>,
    date: Option<int>,
    notes: Option<string>,
    kind: Option<string>)

  const NotFoundMessage := "Expense not found"
  const RequiredMessage := "Amount and category are required"
  const PositiveMessage := "Amount must be greater than 0"
  const ServerErrorMessage := "Server error"
  const DeletedMessage := "Expense deleted successfully"

  /** JavaScript truthiness of an optional string: present and not ''. */
  predicate TruthyText(v: Option<string>)
  {
    v.Some? && v.value != ""
  }

  /** The checks of POST / before anything is built: the message it answers 400 with, if any. */
  function CreateCheck(amount: Option<int>, category: Option<string>): (r: Option<string>)
    ensures r.None? <==> amount.Some? && amount.value > 0 && category.Some? && category.value != ""
    ensures r == Some(RequiredMessage) <==> amount.None? || amount.value == 0 || category.None? || category.value == ""
    ensures r == Some(PositiveMessage) <==> amount.Some? && amount.value < 0 && category.Some? && category.value != ""
  {
    if amount.None? || amount.value == 0 || !TruthyText(category) then Some(RequiredMessage)
    else if amount.value <= 0 then Some(PositiveMessage)
    else None
  }

  /** The document POST / hands to the schema: the owner from the token, `||` defaults for date, notes and type. */
  function CreateDraft(owner: string, b: Body, now: int): (r: Draft)
    ensures r.userId == Some(owner)
    ensures CreateCheck(b.amount, b.category).None? ==> Failures(r) <= {CategoryPath, NotesPath, TypePath}
  {
    Draft(
      Some(owner),
      b.amount,
      b.category,
      Some(if b.date.Some? then b.date.value else now),
      Some(if TruthyText(b.notes) then b.notes.value else ""),
      Some(if TruthyText(b.kind) then b.kind.value else "expense"))
  }

  /**
    The document PUT /:id saves: amount and notes are written when present (so '' clears
    the notes and 0 is written), category, date and type only when truthy.
  */
  function Patched(doc: ExpenseDoc, b: Body): (r: Draft)
    ensures r.userId == Some(doc.owner)
    ensures b == Body(None, None, None, None, None) && Conforms(doc) ==> Cast(doc.id, r, doc.date) == Accepted(doc)
  {
    Draft(
      Some(doc.owner),
      if b.amount.Some? then b.amount else Some(doc.amount),
      if TruthyText(b.category) then b.category else Some(doc.category),
      if b.date.Some? then b.date else Some(doc.date),
      if b.notes.Some? then b.notes else Some(doc.notes),
      if TruthyText(b.kind) then b.kind else Some(KindName(doc.kind)))
  }

  /**
    The document POST / builds: owned by the caller whatever the body says, with the
    category trimmed and date, notes and type defaulted to now, '' and 'expense'.
  */
  lemma CreatedDocument(id: string, owner: string, b: Body, now: int)
    requires Cast(id, CreateDraft(owner, b, now), now).Accepted?
    ensures var d := Cast(id, CreateDraft(owner, b, now), now).doc;
      && Conforms(d)
      && d.id == id
      && d.owner == owner
      && b.amount.Some? && d.amount == b.amount.value
      && b.category.Some? && d.category == Trim(b.category.value)
      && d.date == (if b.date.Some? then b.date.value else now)
      && d.notes == (if TruthyText(b.notes) then b.notes.value else "")
      && d.kind == (if TruthyText(b.kind) then ParseKind(b.kind.value).value else Expense)
  {
  }

  /** An update that saves changes exactly the supplied fields; id and owner never change. */
  lemma PatchChangesOnlySupplied(doc: ExpenseDoc, b: Body)
    requires Conforms(doc)
    requires Cast(doc.id, Patched(doc, b), doc.date).Accepted?
    ensures var u := Cast(doc.id, Patched(doc, b), doc.date).doc;
      && u.id == doc.id
      && u.owner == doc.owner
      && u.amount == (if b.amount.Some? then b.amount.value else doc.amount)
      && u.category == (if TruthyText(b.category) then Trim(b.category.value) else doc.category)
      && u.date == (if b.date.Some? then b.date.value else doc.date)
      && u.notes == (if b.notes.Some? then b.notes.value else doc.notes)
      && u.kind == (if TruthyText(b.kind) then ParseKind(b.kind.value).value else doc.kind)
  {
  }

  /** An update whose supplied values pass the schema is saved. */
  lemma ValidPatchSaves(doc: ExpenseDoc, b: Body)
    requires Conforms(doc)
    requires b.amount.Some? ==> b.amount.value >= 0
    requires TruthyText(b.category) ==> Trim(b.category.value) != ""
    requires b.notes.Some? ==> |b.notes.value| <= NotesMaxLength
    requires TruthyText(b.kind) ==> ParseKind(b.kind.value).Some?
    ensures Cast(doc.id, Patched(doc, b), doc.date).Accepted?
  {
    assert Failures(Patched(doc, b)) == {};
  }

  /** Whether some stored document already has the `_id`. */
  predicate IdTaken(docs: seq<ExpenseDoc>, id: string)
  {
    exists i :: 0 <= i < |docs| && docs[i].id == id
  }

  /** Removing the document at `k` removes exactly the documents with its id and keeps ids unique. */
  lemma RemoveAt(docs: seq<ExpenseDoc>, k: nat)
    requires UniqueIds(docs) && k < |docs|
    ensures UniqueIds(docs[..k] + docs[k + 1..])
    ensures forall x :: x in docs[..k] + docs[k + 1..] <==> x in docs && x.id != docs[k].id
  {
    var rest := docs[..k] + docs[k + 1..];
    assert forall j :: 0 <= j < |rest| ==> rest[j] == docs[if j < k then j else j + 1];
    forall x ensures x in rest <==> x in docs && x.id != docs[k].id {
      if x in docs && x.id != docs[k].id {
        var j :| 0 <= j < |docs| && docs[j] == x;
        assert j != k;
        assert rest[if j < k then j else j - 1] == x;
      }
    }
  }

  /** Appending a document under an id nobody holds keeps ids unique. */
  lemma AppendKeepsIdsUnique(docs: seq<ExpenseDoc>, d: ExpenseDoc)
    requires UniqueIds(docs) && !IdTaken(docs, d.id)
    ensures UniqueIds(docs + [d])
  {
    var u := docs + [d];
    forall i, j | 0 <= i < j < |u| ensures u[i].id != u[j].id {
      if j == |docs| {
        assert u[i] == docs[i];
      } else {
        assert u[i] == docs[i] && u[j] == docs[j];
      }
    }
  }

  /** Every stored document satisfies the schema. */
  predicate AllConform(docs: seq<ExpenseDoc>)
  {
    forall i :: 0 <= i < |docs| ==> Conforms(docs[i])
  }

  /** Appending a conforming document keeps every stored document conforming. */
  lemma AppendKeepsConforming(docs: seq<ExpenseDoc>, d: ExpenseDoc)
    requires AllConform(docs) && Conforms(d)
    ensures AllConform(docs + [d])
  {
    var u := docs + [d];
    forall j | 0 <= j < |u| ensures Conforms(u[j]) {
      if j < |docs| {
        assert u[j] == docs[j];
      }
    }
  }

  /** Replacing a document by a conforming one keeps every stored document conforming. */
  lemma ReplaceKeepsConforming(docs: seq<ExpenseDoc>, k: nat, d: ExpenseDoc)
    requires AllConform(docs) && k < |docs| && Conforms(d)
    ensures AllConform(docs[k := d])
  {
    var u := docs[k := d];
    forall j | 0 <= j < |u| ensures Conforms(u[j]) {
      if j != k {
        assert u[j] == docs[j];
      }
    }
  }

  /** Replacing a document by one with the same id keeps ids unique. */
  lemma ReplaceKeepsIdsUnique(docs: seq<ExpenseDoc>, k: nat, d: ExpenseDoc)
    requires UniqueIds(docs) && k < |docs| && d.id == docs[k].id
    ensures UniqueIds(docs[k := d])
  {
    var u := docs[k := d];
    assert forall j :: 0 <= j < |u| ==> u[j].id == docs[j].id;
  }

  /** The transaction collection; `Valid` holds between requests. */
  class ExpenseStore {
    var docs: seq<ExpenseDoc>

    /** Ids are unique and every stored document has passed the schema. */
    ghost predicate Valid()
      reads this
    {
      UniqueIds(docs) && AllConform(docs)
    }

    constructor ()
      ensures Valid() && docs == []
    {
      docs := [];
    }

    /** GET /: the caller's documents, newest first, at most 100. */
    method List(owner: string) returns (r: seq<ExpenseDoc>)
      ensures r == ListFor(docs, owner)
    {
      r := ListFor(docs, owner);
    }

    /** GET /:id: the document with this id and owner, or 404 when there is none. */
    method Get(owner: string, id: string) returns (r: Reply<ExpenseDoc>)
      ensures r.Ok? <==> exists i :: 0 <= i < |docs| && docs[i].id == id && docs[i].owner == owner
      ensures r.Ok? ==> r.code == 200 && r.value in docs && r.value.id == id && r.value.owner == owner
      ensures r.Fail? ==> r == Fail(404, NotFoundMessage)
    {
      match FindIndex(docs, id, owner)
      case None =>
        r := Fail(404, NotFoundMessage);
      case Some(i) =>
        r := Ok(200, docs[i]);
    }

    /**
      POST /: checks amount and category, builds the document for the caller and saves it.
      A failure stores nothing; the schema or a taken id fails the save with 500.
    */
    method Create(owner: string, b: Body, now: int, freshId: string) returns (r: Reply<ExpenseDoc>)
      requires Valid()
      modifies this
      ensures Valid()
      ensures r.Fail? ==> docs == old(docs)
      ensures CreateCheck(b.amount, b.category).Some? ==> r == Fail(400, CreateCheck(b.amount, b.category).value)
      ensures r.Ok? <==>
        CreateCheck(b.amount, b.category).None? && !IdTaken(old(docs), freshId)
        && Cast(freshId, CreateDraft(owner, b, now), now).Accepted?
      ensures CreateCheck(b.amount, b.category).None? && !r.Ok? ==> r == Fail(500, ServerErrorMessage)
      ensures r.Ok? ==>
        && r.code == 201
        && docs == old(docs) + [r.value]
        && r.value.id == freshId
        && r.value.owner == owner
        && r.value.amount == b.amount.value
        && r.value.category == Trim(b.category.value)
        && r.value.date == (if b.date.Some? then b.date.value else now)
        && r.value.notes == (if TruthyText(b.notes) then b.notes.value else "")
        && r.value.kind == (if TruthyText(b.kind) then ParseKind(b.kind.value).value else Expense)
    {
      var problem := CreateCheck(b.amount, b.category);
      if problem.Some? {
        return Fail(400, problem.value);
      }
      if IdTaken(docs, freshId) {
        return Fail(500, ServerErrorMessage);
      }
      var v := Cast(freshId, CreateDraft(owner, b, now), now);
      if v.Rejected? {
        return Fail(500, ServerErrorMessage);
      }
      CreatedDocument(freshId, owner, b, now);
      AppendKeepsIdsUnique(docs, v.doc);
      AppendKeepsConforming(docs, v.doc);
      docs := docs + [v.doc];
      r := Ok(201, v.doc);
    }

    /**
      PUT /:id: 404 unless the caller owns a document with this id, checked before
      anything else; a negative amount answers 400; otherwise the supplied fields are
      written and the document saved, or the save fails with 500. Failures change nothing.
    */
    method Update(owner: string, id: string, b: Body) returns (r: Reply<ExpenseDoc>)
      requires Valid()
      modifies this
      ensures Valid()
      ensures r.Fail? ==> docs == old(docs)
      ensures FindIndex(old(docs), id, owner).None? ==> r == Fail(404, NotFoundMessage)
      ensures FindIndex(old(docs), id, owner).Some? && b.amount.Some? && b.amount.value < 0 ==>
        r == Fail(400, PositiveMessage)
      ensures FindIndex(old(docs), id, owner).Some? && !(b.amount.Some? && b.amount.value < 0) ==>
        var i := FindIndex(old(docs), id, owner).value;
        var v := Cast(id, Patched(old(docs)[i], b), old(docs)[i].date);
        && (v.Rejected? ==> r == Fail(500, ServerErrorMessage))
        && (v.Accepted? ==> r == Ok(200, v.doc) && docs == old(docs)[i := v.doc])
    {
      var found := FindIndex(docs, id, owner);
      if found.None? {
        return Fail(404, NotFoundMessage);
      }
      var i := found.value;
      if b.amount.Some? && b.amount.value != 0 && b.amount.value <= 0 {
        return Fail(400, PositiveMessage);
      }
      var v := Cast(id, Patched(docs[i], b), docs[i].date);
      if v.Rejected? {
        return Fail(500, ServerErrorMessage);
      }
      ReplaceKeepsIdsUnique(docs, i, v.doc);
      ReplaceKeepsConforming(docs, i, v.doc);
      docs := docs[i := v.doc];
      r := Ok(200, v.doc);
    }

    /**
      DELETE /:id: removes the one document with this id and owner and keeps all
      others; 404 with nothing removed when there is none, so deleting twice answers 404.
    */
    method Delete(owner: string, id: string) returns (r: Reply<string>)
      requires Valid()
      modifies this
      ensures Valid()
      ensures FindIndex(old(docs), id, owner).None? ==> r == Fail(404, NotFoundMessage) && docs == old(docs)
      ensures FindIndex(old(docs), id, owner).Some? ==>
        var i := FindIndex(old(docs), id, owner).value;
        r == Ok(200, DeletedMessage) && docs == old(docs)[..i] + old(docs)[i + 1..]
      ensures forall x :: x in docs <==> x in old(docs) && !(x.id == id && x.owner == owner)
      ensures FindIndex(docs, id, owner).None?
    {
      var found := FindIndex(docs, id, owner);
      if found.None? {
        return Fail(404, NotFoundMessage);
      }
      var i := found.value;
      RemoveAt(docs, i);
      docs := docs[..i] + docs[i + 1..];
      r := Ok(200, DeletedMessage);
    }

    /** GET /range/:startDate/:endDate: the caller's documents dated within both bounds, newest first. */
    method Range(owner: string, start: int, end: int) returns (r: seq<ExpenseDoc>)
      ensures r == RangeFor(docs, owner, start, end)
    {
      r := RangeFor(docs, owner, start, end);
    }

    /** GET /stats/summary over all of the caller's documents. */
    method Summary(owner: string) returns (r: Ledger.Summary)
      ensures r == Summarize(docs, owner)
    {
      r := Summarize(docs, owner);
    }
  }
}
