/** Result types shared by every module, and a few facts about sequences. */
module Common {

  datatype Option<+T> = None | Some(value: T)
  {
    /** The `a ?? b` of the client: keep a present value, otherwise take the other one. */
    function Or(other: Option<T>): (r: Option<T>)
    {
      if Some? then this else other
    }
  }

  datatype Result<+T, +E> = Ok(value: T) | Err(error: E)

  function Max(a: int, b: int): (r: int)
  {
    if a >= b then a else b
  }

  predicate IsLeast(m: nat, s: set<nat>)
  {
    m in s && forall x :: x in s ==> m <= x
  }

  /** The least element of a non-empty set of identifiers. */
  function Least(s: set<nat>): (least: nat)
    requires s != {}
    ensures IsLeast(least, s)
  {
    LeastExists(s);
    var m :| IsLeast(m, s);
    m
  }

  lemma {:induction false} LeastExists(s: set<nat>)
    requires s != {}
    ensures exists m :: IsLeast(m, s)
    decreases |s|
  {
    var a :| a in s;
    if s == {a} {
      assert IsLeast(a, s);
    } else {
      LeastExists(s - {a});
      var m :| IsLeast(m, s - {a});
      assert forall x :: x in s ==> x == a || x in s - {a};
      assert IsLeast(if a <= m then a else m, s);
    }
  }

  /** The elements of a set of identifiers in increasing order. */
  function Ascending(s: set<nat>): (order: seq<nat>)
    ensures forall x :: x in order <==> x in s
    ensures forall i, j :: 0 <= i < j < |order| ==> order[i] < order[j]
    decreases |s|
  {
    if s == {} then [] else
    var m := Least(s);
    [m] + Ascending(s - {m})
  }
}
