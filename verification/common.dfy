/** Values shared by the backend handlers and the client views. */
module Common {

  /** A value that may be absent: an `undefined` JSON field, a `null` lookup result. */
  datatype Option<+T> = None | Some(value: T)

  /** What a handler sends back: a status code with a JSON value, or a status code with a message. */
  datatype Reply<+T> = Ok(code: int, value: T) | Fail(code: int, message: string)

  /** The `type` of a transaction: `'expense' | 'income'`. */
  datatype Kind = Expense | Income

  /** The string a kind is stored and sent as. */
  function KindName(k: Kind): string
  {
    match k
    case Expense => "expense"
    case Income => "income"
  }

  /** Reads a `type` string; only the two enum values are kinds. */
  function ParseKind(s: string): (r: Option<Kind>)
    ensures r.Some? <==> s == "expense" || s == "income"
    ensures r.Some? ==> KindName(r.value) == s
  {
    if s == "expense" then Some(Expense)
    else if s == "income" then Some(Income)
    else None
  }

  /** `Array.prototype.filter`: the elements satisfying `p`, in their original order. */
  function Filter<T(!new)>(s: seq<T>, p: T -> bool): (r: seq<T>)
    ensures |r| <= |s|
    ensures forall x :: x in r <==> x in s && p(x)
    ensures forall x :: multiset(r)[x] == if p(x) then multiset(s)[x] else 0
  {
    if s == [] then []
    else
      assert s == [s[0]] + s[1..];
      (if p(s[0]) then [s[0]] else []) + Filter(s[1..], p)
  }

  /** Filtering a concatenation filters each part: the kept elements stay in their original order. */
  lemma {:induction false} FilterConcat<T(!new)>(a: seq<T>, b: seq<T>, p: T -> bool)
    ensures Filter(a + b, p) == Filter(a, p) + Filter(b, p)
  {
    if a == [] {
      assert a + b == b;
    } else {
      assert (a + b)[0] == a[0];
      assert (a + b)[1..] == a[1..] + b;
      FilterConcat(a[1..], b, p);
    }
  }

  /** Filtering by a predicate that every element satisfies keeps the whole sequence. */
  lemma {:induction false} FilterAllPass<T(!new)>(s: seq<T>, p: T -> bool)
    requires forall i :: 0 <= i < |s| ==> p(s[i])
    ensures Filter(s, p) == s
  {
    if s != [] {
      FilterAllPass(s[1..], p);
    }
  }

  function Min(a: int, b: int): int
  {
    if a <= b then a else b
  }
}
