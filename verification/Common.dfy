/** Result shapes shared by the modules of this project. */
module Common {

  datatype Option<+T> = None | Some(value: T)

  datatype Result<+T, +E> = Ok(value: T) | Err(error: E)

  /** How many entries of a sequence equal a given value. */
  function Multiplicity<T(==)>(s: seq<T>, x: T): (n: nat)
    ensures n > 0 <==> x in s
  {
    if s == [] then 0 else (if s[0] == x then 1 else 0) + Multiplicity(s[1..], x)
  }

  lemma {:induction false} MultiplicityConcat<T>(s: seq<T>, t: seq<T>, x: T)
    ensures Multiplicity(s + t, x) == Multiplicity(s, x) + Multiplicity(t, x)
  {
    if s == [] {
      assert s + t == t;
    } else {
      assert (s + t)[1..] == s[1..] + t;
      MultiplicityConcat(s[1..], t, x);
    }
  }

  /** The first entry that passes a test. */
  function FirstIndex<T>(s: seq<T>, test: T -> bool): (r: Option<nat>)
    ensures r.Some? ==> r.value < |s| && test(s[r.value]) && forall i :: 0 <= i < r.value ==> !test(s[i])
    ensures r.None? ==> forall i :: 0 <= i < |s| ==> !test(s[i])
  {
    if s == [] then None
    else if test(s[0]) then Some(0)
    else match FirstIndex(s[1..], test)
      case None => None
      case Some(i) => Some(i + 1)
  }
}
