/** Optional values, and the search for the first index with a property, as used throughout the harness model. */
module Wrappers {

  /** A value that may be absent: Python's `None` or a missing dictionary key. */
  datatype Option<T> = None | Some(value: T)
  {
    function GetOr(default: T): T
    {
      match this
      case None => default
      case Some(v) => v
    }
  }

  /** Python truthiness of an optional string: `None` and `""` are both false. */
  predicate Truthy(s: Option<string>)
  {
    s.Some? && s.value != ""
  }

  /** The least index in `[i, n)` where `p` holds. */
  function FirstWhere(p: nat -> bool, i: nat, n: nat): (r: Option<nat>)
    ensures r.Some? ==> i <= r.value < n
    decreases n - i
  {
    if i >= n then None else if p(i) then Some(i) else FirstWhere(p, i + 1, n)
  }

  /** `FirstWhere` finds an index where `p` holds and none before it; without a result there is none at all. */
  lemma {:induction false} FirstWhereIsLeast(p: nat -> bool, i: nat, n: nat)
    ensures FirstWhere(p, i, n).Some? ==>
      p(FirstWhere(p, i, n).value) && forall j :: i <= j < FirstWhere(p, i, n).value ==> !p(j)
    ensures FirstWhere(p, i, n).None? ==> forall j :: i <= j < n ==> !p(j)
    decreases n - i
  {
    if i < n && !p(i) {
      FirstWhereIsLeast(p, i + 1, n);
    }
  }

  /** An index where `p` holds, with no such index before it, is the one `FirstWhere` finds. */
  lemma {:induction false} FirstWhereAt(p: nat -> bool, i: nat, n: nat, j: nat)
    requires i <= j < n && p(j)
    requires forall k :: i <= k < j ==> !p(k)
    ensures FirstWhere(p, i, n) == Some(j)
    decreases j - i
  {
    if i < j {
      FirstWhereAt(p, i + 1, n, j);
    }
  }
}
