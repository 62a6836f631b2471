/** JavaScript truthiness for the optional fields the front end reads:
    `undefined`, `null`, `""` and `0` are falsy. Numbers are integers here
    (ratings and distances in tenths), so `NaN` does not arise. */
module Js {
  import opened Wrappers

  /** A string field that is present and non-empty. */
  predicate Truthy(v: Option<string>) {
    v.Some? && v.value != ""
  }

  /** A number field that is present and non-zero. */
  predicate TruthyNum(v: Option<int>) {
    v.Some? && v.value != 0
  }

  /** `a || b` on string fields. */
  function Or(a: Option<string>, b: Option<string>): (r: Option<string>)
    ensures Truthy(r) <==> Truthy(a) || Truthy(b)
    ensures Truthy(a) ==> r == a
    ensures !Truthy(a) ==> r == b
  {
    if Truthy(a) then a else b
  }

  /** `a || d` on a string field with a literal default. */
  function OrStr(a: Option<string>, d: string): (r: string)
    ensures Truthy(a) ==> r == a.value
    ensures !Truthy(a) ==> r == d
    ensures r != "" <==> Truthy(a) || d != ""
  {
    if Truthy(a) then a.value else d
  }

  /** `a || d` on a number field with a literal default. */
  function OrNum(a: Option<int>, d: int): (r: int)
    ensures TruthyNum(a) ==> r == a.value
    ensures !TruthyNum(a) ==> r == d
  {
    if TruthyNum(a) then a.value else d
  }

  /** With a default of 0, `a || 0` and `a ?? 0` agree: a present 0 gives 0
      either way. */
  lemma OrZeroIsGetOr(a: Option<int>)
    ensures OrNum(a, 0) == a.GetOr(0)
  {
  }
}
