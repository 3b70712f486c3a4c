/** Small building blocks shared by the two payroll reports: optional values,
    the exceptions the Python code can raise, and a failure-compatible result. */
module Common {

  datatype Option<T> = None | Some(value: T)

  /** The exceptions the reports can raise: a dictionary lookup of a key that
      is not there, or an arithmetic/comparison involving `None`. */
  datatype Error = KeyError(key: string) | TypeError

  /** Either a value or the exception that aborted the computation. */
  datatype Result<T> = Ok(value: T) | Err(error: Error) {
    predicate IsFailure() { Err? }

    function PropagateFailure<U>(): Result<U>
      requires Err?
    {
      Err(error)
    }

    function Extract(): T
      requires Ok?
    {
      value
    }
  }

  /** Python truthiness of an optional filter string: `None` and `""` are both falsy. */
  predicate Given(o: Option<string>) {
    o.Some? && o.value != ""
  }

  /** `d.get(k)` on a dictionary. */
  function Lookup<K, V>(m: map<K, V>, k: K): Option<V> {
    if k in m then Some(m[k]) else None
  }

  function Max(a: int, b: int): int {
    if a < b then b else a
  }

  function Min(a: int, b: int): int {
    if a < b then a else b
  }

  predicate Distinct<T(==)>(s: seq<T>) {
    forall i, j :: 0 <= i < j < |s| ==> s[i] != s[j]
  }

  /** The elements of `s` that satisfy `p`, in their original order. */
  function Filter<T(==,!new)>(p: T -> bool, s: seq<T>): (r: seq<T>)
    ensures |r| <= |s|
    ensures forall x :: x in r <==> x in s && p(x)
    ensures multiset(r) <= multiset(s)
  {
    if |s| == 0 then []
    else
      assert s == [s[0]] + s[1..];
      (if p(s[0]) then [s[0]] else []) + Filter(p, s[1..])
  }
}
