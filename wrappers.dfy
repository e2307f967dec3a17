/** Option and Result, for the places where the billing code returns "nothing"
    or shows an error dialog instead of a value. */
module Wrappers {
  datatype Option<+T> = None | Some(value: T)

  datatype Result<+T, +E> = Ok(value: T) | Err(error: E)
}

/** The three states a JSON store file can be in when the billing code opens it:
    absent, present but not parseable, or a parsed list of records. */
module Storage {
  datatype Stored<+T> = Missing | Unreadable | Present(items: seq<T>)

  /** What `load_customers` and `log_invoice` read: the records, or an empty
      list when the file is absent or cannot be parsed. */
  function Loaded<T>(f: Stored<T>): (r: seq<T>)
    ensures f.Present? ==> r == f.items
    ensures !f.Present? ==> r == []
  {
    if f.Present? then f.items else []
  }
}

/** Order-preserving subsequences, for the filtered views of the ledger and
    the customer directory. */
module Sequences {
  /** `a` is `b` with some elements left out and the rest in their order. */
  predicate IsSubsequence<T(==)>(a: seq<T>, b: seq<T>)
    decreases |b|
  {
    a == [] || (b != [] && ((a[0] == b[0] && IsSubsequence(a[1..], b[1..])) || IsSubsequence(a, b[1..])))
  }

  /** An element of a non-empty sequence is its head or lies in its tail. */
  lemma InHeadOrTail<T>(s: seq<T>)
    requires s != []
    ensures forall x :: x in s <==> x == s[0] || x in s[1..]
  {
    assert s == [s[0]] + s[1..];
  }

  lemma SubsequenceOfTail<T>(a: seq<T>, b: seq<T>)
    requires b != [] && IsSubsequence(a, b[1..])
    ensures IsSubsequence(a, b)
  {
  }
}
