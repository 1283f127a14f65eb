/**
  The values `json` decoding can put in the `grid_state` field of the
  inverter's reply, and the equality Python applies to them.
 */
module PyJson {

  /** A non-null JSON scalar as Python decodes it. Numbers are kept as exact
      reals, so the literals `1` and `1.0` denote one number, as they compare
      equal in Python. JSON `null` is not a `Json`: `dict.get` returns `None`
      for it, exactly as for a missing key. */
  datatype Json = JBool(b: bool) | JNum(n: real) | JStr(s: string)

  /** The number or string Python's `==` compares: `bool` is a subclass of
      `int`, so `True` stands for 1 and `False` for 0. */
  function Canonical(v: Json): (c: Json)
    ensures !c.JBool?
    ensures v.JStr? <==> c.JStr?
    ensures !v.JBool? ==> c == v
  {
    match v
    case JBool(b) => JNum(if b then 1.0 else 0.0)
    case _ => v
  }

  /** Python's `a == b` on two decoded scalars. */
  function PyEq(a: Json, b: Json): (r: bool)
    ensures a == b ==> r
    ensures a.JStr? || b.JStr? ==> (r <==> a == b)
    ensures a.JNum? && b.JNum? ==> (r <==> a.n == b.n)
    ensures a.JBool? && b.JBool? ==> (r <==> a.b == b.b)
    ensures a.JBool? && b.JNum? ==> (r <==> b.n == if a.b then 1.0 else 0.0)
    ensures a.JNum? && b.JBool? ==> (r <==> a.n == if b.b then 1.0 else 0.0)
  {
    Canonical(a) == Canonical(b)
  }

  /** Python's `==` is an equivalence on these values, which is what lets a
      change detector compare against any earlier member of a run of equal
      observations. */
  lemma PyEqTransitive(a: Json, b: Json, c: Json)
    requires PyEq(a, b) && PyEq(b, c)
    ensures PyEq(a, c)
  {
  }

}
