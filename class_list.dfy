/**
 * A CSS class list as the UI framework keeps it: the class names in the order
 * they were first added, with no empty name and no name twice. Adding an empty
 * name or one already present leaves the list as it is.
 */
module ClassList {

  /** No class name is empty and no class name occurs twice. */
  predicate WellFormed(c: seq<string>) {
    && (forall i :: 0 <= i < |c| ==> c[i] != "")
    && (forall i, j :: 0 <= i < j < |c| ==> c[i] != c[j])
  }

  type Classes = c: seq<string> | WellFormed(c) witness []

  /** Adds one class name at the end, unless it is empty or already present. */
  function Push(c: Classes, name: string): (r: Classes)
    ensures forall u :: u in r <==> u in c || (u == name && name != "")
    ensures |c| <= |r| <= |c| + 1 && r[..|c|] == c
  {
    if name == "" || name in c then c else c + [name]
  }

  /** Adds the names of `extra` one after the other, as repeated pushes do. */
  function Extend(c: Classes, extra: seq<string>): (r: Classes)
    ensures forall u :: u in r <==> u in c || (u in extra && u != "")
    ensures |c| <= |r| && r[..|c|] == c
    decreases |extra|
  {
    if extra == [] then c
    else
      var c' := Push(c, extra[0]);
      var r := Extend(c', extra[1..]);
      assert r[..|c|] == r[..|c'|][..|c|];
      assert forall u :: u in extra <==> u == extra[0] || u in extra[1..];
      r
  }

  /** Of a list sharing no name with `c`, the first name is pushed as is and the rest stays fresh. */
  lemma PushFresh(c: Classes, extra: Classes)
    requires extra != []
    requires forall i :: 0 <= i < |extra| ==> extra[i] !in c
    ensures WellFormed(c + [extra[0]]) && WellFormed(extra[1..])
    ensures Push(c, extra[0]) == c + [extra[0]]
    ensures forall i :: 0 <= i < |extra| - 1 ==> extra[1..][i] !in c + [extra[0]]
  {
    forall i | 0 <= i < |extra| - 1 ensures extra[1..][i] !in c + [extra[0]] {
      assert extra[1..][i] == extra[i + 1] && extra[i + 1] != extra[0];
    }
  }

  /** Appending a well-formed list that shares no name with `c` keeps every name, in order. */
  lemma {:induction false} ExtendDisjoint(c: Classes, extra: Classes)
    requires forall i :: 0 <= i < |extra| ==> extra[i] !in c
    ensures Extend(c, extra) == c + extra
    decreases |extra|
  {
    if extra != [] {
      PushFresh(c, extra);
      var c': Classes, rest: Classes := c + [extra[0]], extra[1..];
      assert Extend(c, extra) == Extend(c', rest);
      ExtendDisjoint(c', rest);
      ConcatCons(c, extra);
    }
  }

  /** Moving the head of the right operand to the left leaves a concatenation unchanged. */
  lemma ConcatCons(c: seq<string>, extra: seq<string>)
    requires extra != []
    ensures c + [extra[0]] + extra[1..] == c + extra
  {
    assert extra == [extra[0]] + extra[1..];
  }
}
