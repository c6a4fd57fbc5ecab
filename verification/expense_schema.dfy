/**
  The transaction schema: its field constraints, the `trim` setter on the category
  and the defaults filled in when a document is built.
*/
module ExpenseSchema {
  import opened Common

  /** A stored transaction document. `date` is a timestamp, `amount` is in minor currency units. */
  datatype ExpenseDoc = ExpenseDoc(
    id: string,
    owner: string,
    amount: int,
    category: string,
    date: int,
    notes: string,
    kind: Kind)

  /** The fields handed to the schema before validation; `None` is a field left undefined. */
  datatype Draft = Draft(
    userId: Option<string>,
    amount: Option<int>,
    category: Option<string>,
    date: Option<int>,
    notes: Option<string>,
    kind: Option<string>)

  /** A schema path whose validator can fail. */
  datatype Path = UserIdPath | AmountPath | CategoryPath | NotesPath | TypePath

  /** Validation either yields the document or names every path that failed. */
  datatype Validation = Accepted(doc: ExpenseDoc) | Rejected(failing: set<Path>)

  const NotesMaxLength := 500

  /** The characters `String.prototype.trim` removes: white space and line terminators. */
  predicate IsWhitespace(c: char)
  {
    c == ' ' || c == '\t' || c == '\n' || c == '\r' || c == '\U{000B}' || c == '\U{000C}'
    || c == '\U{00A0}' || c == '\U{1680}' || ('\U{2000}' <= c <= '\U{200A}')
    || c == '\U{2028}' || c == '\U{2029}' || c == '\U{202F}' || c == '\U{205F}'
    || c == '\U{3000}' || c == '\U{FEFF}'
  }

  /** The number of white-space characters `s` starts with. */
  function LeadingWhitespace(s: string): (n: nat)
    ensures n <= |s|
    ensures forall i :: 0 <= i < n ==> IsWhitespace(s[i])
    ensures n == |s| || !IsWhitespace(s[n])
  {
    if s != [] && IsWhitespace(s[0]) then 1 + LeadingWhitespace(s[1..]) else 0
  }

  /** The number of white-space characters `s` ends with. */
  function TrailingWhitespace(s: string): (n: nat)
    ensures n <= |s|
    ensures forall i :: |s| - n <= i < |s| ==> IsWhitespace(s[i])
    ensures n == |s| || !IsWhitespace(s[|s| - n - 1])
  {
    if s != [] && IsWhitespace(s[|s| - 1]) then 1 + TrailingWhitespace(s[..|s| - 1]) else 0
  }

  /**
    `String.prototype.trim`: the infix of `s` left after dropping its leading and
    trailing white space, which neither starts nor ends with white space.
  */
  function Trim(s: string): (r: string)
    ensures LeadingWhitespace(s) + |r| <= |s|
    ensures r == s[LeadingWhitespace(s)..LeadingWhitespace(s) + |r|]
    ensures forall i :: LeadingWhitespace(s) + |r| <= i < |s| ==> IsWhitespace(s[i])
    ensures r == [] || (!IsWhitespace(r[0]) && !IsWhitespace(r[|r| - 1]))
    ensures r == [] <==> forall i :: 0 <= i < |s| ==> IsWhitespace(s[i])
  {
    var lo := LeadingWhitespace(s);
    var rest := s[lo..];
    var r := rest[..|rest| - TrailingWhitespace(rest)];
    assert forall i :: lo + |r| <= i < |s| ==> s[i] == rest[i - lo];
    assert rest != [] ==> !IsWhitespace(rest[0]) && r != [];
    r
  }

  /** `s` neither starts nor ends with white space. */
  predicate Trimmed(s: string)
  {
    s == [] || (!IsWhitespace(s[0]) && !IsWhitespace(s[|s| - 1]))
  }

  /** A string that neither starts nor ends with white space is its own trim. */
  lemma TrimmedIsFixed(s: string)
    requires Trimmed(s)
    ensures Trim(s) == s
  {
  }

  /** What every stored document satisfies once it has passed the schema. */
  predicate Conforms(d: ExpenseDoc)
    ensures Conforms(d) ==> Trim(d.category) == d.category && Trim(d.category) != ""
  {
    && d.amount >= 0
    && d.category != []
    && Trimmed(d.category)
    && |d.notes| <= NotesMaxLength
  }

  /** The value a path holds after the setters and defaults have run. */
  function CategoryOf(d: Draft): string
  {
    if d.category.Some? then Trim(d.category.value) else ""
  }

  function NotesOf(d: Draft): string
  {
    if d.notes.Some? then d.notes.value else ""
  }

  function TypeOf(d: Draft): string
  {
    if d.kind.Some? then d.kind.value else "expense"
  }

  /** The paths whose validator fails: `required`, `min: 0`, `maxlength: 500` and the `type` enum. */
  function Failures(d: Draft): (f: set<Path>)
    ensures UserIdPath in f <==> d.userId.None?
    ensures AmountPath in f <==> d.amount.None? || d.amount.value < 0
    ensures CategoryPath in f <==>
      d.category.None? || forall i :: 0 <= i < |d.category.value| ==> IsWhitespace(d.category.value[i])
    ensures NotesPath in f <==> d.notes.Some? && |d.notes.value| > NotesMaxLength
    ensures TypePath in f <==> d.kind.Some? && ParseKind(d.kind.value).None?
  {
    (if d.userId.None? then {UserIdPath} else {})
    + (if d.amount.None? || d.amount.value < 0 then {AmountPath} else {})
    + (if CategoryOf(d) == [] then {CategoryPath} else {})
    + (if |NotesOf(d)| > NotesMaxLength then {NotesPath} else {})
    + (if ParseKind(TypeOf(d)).None? then {TypePath} else {})
  }

  /**
    Builds and validates a document: the category goes through the `trim` setter,
    an undefined date becomes `now`, undefined notes become '' and an undefined
    type becomes 'expense'; then every validator runs and all failing paths are reported.
  */
  function Cast(id: string, d: Draft, now: int): (r: Validation)
    ensures r.Accepted? <==> Failures(d) == {}
    ensures r.Rejected? ==> r.failing == Failures(d)
    ensures r.Accepted? ==> Conforms(r.doc)
    ensures r.Accepted? ==>
      && r.doc.id == id
      && Some(r.doc.owner) == d.userId
      && Some(r.doc.amount) == d.amount
      && r.doc.category == Trim(d.category.value)
      && r.doc.date == (if d.date.Some? then d.date.value else now)
      && r.doc.notes == (if d.notes.Some? then d.notes.value else "")
      && r.doc.kind == (if d.kind.Some? then ParseKind(d.kind.value).value else Expense)
  {
    var failing := Failures(d);
    if failing == {} then
      assert UserIdPath !in failing && AmountPath !in failing && CategoryPath !in failing;
      assert NotesPath !in failing && TypePath !in failing;
      var category := CategoryOf(d);
      TrimmedIsFixed(category);
      var date := if d.date.Some? then d.date.value else now;
      Accepted(ExpenseDoc(id, d.userId.value, d.amount.value, category, date, NotesOf(d), ParseKind(TypeOf(d)).value))
    else
      Rejected(failing)
  }

  /** An amount of 0 satisfies `min: 0`; only negative amounts fail it. */
  lemma ZeroAmountAccepted(id: string, owner: string, category: string, now: int)
    requires !(forall i :: 0 <= i < |category| ==> IsWhitespace(category[i]))
    ensures Cast(id, Draft(Some(owner), Some(0), Some(category), None, None, None), now).Accepted?
  {
  }
}
