/** What the models have in common: optional values, and lists without some of their elements. */
module Basics {
  datatype Option<+T> = None | Some(value: T)

  ghost predicate Distinct<T>(s: seq<T>) {
    forall i, j :: 0 <= i < j < |s| ==> s[i] != s[j]
  }

  /** The elements of s that are not in `gone`, in their order. */
  function Without<T(==, !new)>(s: seq<T>, gone: set<T>): (r: seq<T>)
    ensures forall x :: x in r <==> x in s && x !in gone
    ensures Distinct(s) ==> Distinct(r)
  {
    if s == [] then []
    else
      var rest := Without(s[1..], gone);
      assert s == [s[0]] + s[1..];
      assert Distinct(s) ==> Distinct(s[1..]) && s[0] !in s[1..];
      if s[0] in gone then rest else [s[0]] + rest
  }
}
