/** Shapes shared by every page of the portal: JavaScript's nullable values and
    truthiness rules, the signed-in account, and the array helpers the pages
    use on their list fields (`some`, index-filtering, copy-then-assign). */
module Common {

  /** A nullable value: `None` is JavaScript's `null` (or `undefined`). */
  datatype Option<T> = None | Some(value: T)

  /** The account the authentication service reports as signed in. */
  datatype User = User(id: string, email: string)

  /** A string is truthy in JavaScript exactly when it is non-empty. */
  predicate Truthy(s: string) {
    s != ""
  }

  /** `s || null`: an empty string is stored as null. */
  function OrNull(s: string): (r: Option<string>)
    ensures r.None? <==> s == ""
    ensures r.Some? ==> r.value == s
  {
    if s == "" then None else Some(s)
  }

  /** `v || fallback` for a nullable string: null and "" both fall back. */
  function OrElse(v: Option<string>, fallback: string): (r: string)
    ensures r == fallback || (v.Some? && r == v.value && r != "")
    ensures (v.None? || v.value == "") ==> r == fallback
  {
    if v.Some? && v.value != "" then v.value else fallback
  }

  /** `s || fallback` for a string: an empty one falls back. */
  function OrDefault(s: string, fallback: string): (r: string)
    ensures s != "" ==> r == s
    ensures s == "" ==> r == fallback
  {
    if s == "" then fallback else s
  }

  /** Reading a stored nullable column back as text undoes `OrNull`. */
  lemma OrNullRoundTrip(s: string)
    ensures OrElse(OrNull(s), "") == s
  {
  }

  /** `xs.some(p)`, scanning from the front as Array.prototype.some does. */
  function AnyOf<T>(xs: seq<T>, p: T -> bool): bool
  {
    if xs == [] then false else p(xs[0]) || AnyOf(xs[1..], p)
  }

  /** `some` holds exactly when one element satisfies the predicate. */
  lemma {:induction false} AnyOfIffExists<T>(xs: seq<T>, p: T -> bool)
    ensures AnyOf(xs, p) <==> exists i :: 0 <= i < |xs| && p(xs[i])
  {
    if xs != [] {
      AnyOfIffExists(xs[1..], p);
      if p(xs[0]) {
        assert 0 < |xs| && p(xs[0]);
      } else if AnyOf(xs[1..], p) {
        var i :| 0 <= i < |xs[1..]| && p(xs[1..][i]);
        assert p(xs[i + 1]);
      } else {
        forall i | 0 <= i < |xs| ensures !p(xs[i]) {
          if i > 0 { assert xs[i] == xs[1..][i - 1]; }
        }
      }
    }
  }

  /** `xs.filter((_, idx) => idx !== i)`, written as the filter walks the
      array: `from` is the index of `xs[0]` in the original array. */
  function FilterOutIndex<T>(xs: seq<T>, i: int, from: int): (r: seq<T>)
    ensures !(from <= i < from + |xs|) ==> r == xs
    ensures from <= i < from + |xs| ==> r == xs[..i - from] + xs[i - from + 1..]
  {
    if xs == [] then []
    else if from == i then FilterOutIndex(xs[1..], i, from + 1)
    else [xs[0]] + FilterOutIndex(xs[1..], i, from + 1)
  }

  /** Removing index `i` from a list: an index outside the list removes
      nothing, otherwise exactly entry `i` goes and the rest keep their order. */
  function RemoveAt<T>(xs: seq<T>, i: int): (r: seq<T>)
    ensures !(0 <= i < |xs|) ==> r == xs
    ensures 0 <= i < |xs| ==> |r| == |xs| - 1
    ensures 0 <= i < |xs| ==> forall j :: 0 <= j < i ==> r[j] == xs[j]
    ensures 0 <= i < |xs| ==> forall j :: i <= j < |r| ==> r[j] == xs[j + 1]
  {
    FilterOutIndex(xs, i, 0)
  }

  /** Removing the entry that was just appended gives the list back. */
  lemma RemoveAppended<T>(xs: seq<T>, x: T)
    ensures RemoveAt(xs + [x], |xs|) == xs
  {
    assert (xs + [x])[..|xs|] == xs;
  }

  /** `const updated = [...xs]; updated[i] = x;` — the copy is a fresh array,
      one slot of which is then assigned; nothing else of the list changes. */
  method CopyAndSet<T>(xs: seq<T>, i: nat, x: T) returns (updated: seq<T>)
    requires i < |xs|
    ensures |updated| == |xs|
    ensures updated[i] == x
    ensures forall j :: 0 <= j < |xs| && j != i ==> updated[j] == xs[j]
  {
    var a := new T[|xs|](j requires 0 <= j < |xs| => xs[j]);
    a[i] := x;
    updated := a[..];
  }
}
