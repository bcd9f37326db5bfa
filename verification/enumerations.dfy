/** The meaning of a C enumeration as a table: a declaration is the list of
    its enumerators in source order, each a name with an integer value, and
    the name for a value is found by scanning the list. The two system call
    enums are checked against this reading in `NativeTable` and `X32Table`. */
module Enumerations {
  import opened Wrappers
  import opened Syscalls

  /** One enumerator: its name and the value the declaration gives it. */
  datatype Enumerator = Enumerator(name: Syscall, value: int)

  /** Every enumerator has a larger value than the one declared before it. */
  predicate Increasing(decl: seq<Enumerator>)
  {
    forall i :: 0 <= i < |decl| - 1 ==> decl[i].value < decl[i + 1].value
  }

  /** The name of the first enumerator whose value is `n`, scanning the
      declaration in source order, or `None` when no enumerator has that
      value. */
  function Lookup(decl: seq<Enumerator>, n: int): (r: Option<Syscall>)
    ensures r.Some? ==> exists i :: 0 <= i < |decl| && decl[i] == Enumerator(r.value, n)
    ensures r.None? <==> forall i :: 0 <= i < |decl| ==> decl[i].value != n
  {
    if |decl| == 0 then None
    else if decl[0].value == n then Some(decl[0].name)
    else Lookup(decl[1..], n)
  }

  /** In an increasing declaration, values increase between any two
      enumerators, not only between neighbours. */
  lemma {:induction false} IncreasingIsTransitive(decl: seq<Enumerator>, i: nat, j: nat)
    requires Increasing(decl) && i < j < |decl|
    ensures decl[i].value < decl[j].value
    decreases j - i
  {
    if i + 1 < j {
      IncreasingIsTransitive(decl, i + 1, j);
    }
  }

  /** In an increasing declaration, the scan for an enumerator's value
      finds that enumerator, not an earlier one. */
  lemma {:induction false} LookupFinds(decl: seq<Enumerator>, i: nat)
    requires Increasing(decl) && i < |decl|
    ensures Lookup(decl, decl[i].value) == Some(decl[i].name)
  {
    if i > 0 {
      IncreasingIsTransitive(decl, 0, i);
      assert Increasing(decl[1..]) by {
        forall k | 0 <= k < |decl[1..]| - 1
          ensures decl[1..][k].value < decl[1..][k + 1].value
        {
          assert decl[1..][k] == decl[k + 1];
        }
      }
      LookupFinds(decl[1..], i - 1);
    }
  }

  /** In an increasing declaration, the scan answers `s` for `n` exactly when
      some enumerator is named `s` with value `n`. */
  lemma LookupIff(decl: seq<Enumerator>, n: int, s: Syscall)
    requires Increasing(decl)
    ensures Lookup(decl, n) == Some(s) <==>
      exists i :: 0 <= i < |decl| && decl[i] == Enumerator(s, n)
  {
    if exists i :: 0 <= i < |decl| && decl[i] == Enumerator(s, n) {
      var i :| 0 <= i < |decl| && decl[i] == Enumerator(s, n);
      LookupFinds(decl, i);
    }
  }
}
