/** Small vocabulary shared by the models. */
module Basics {
  datatype Option<+T> = None | Some(value: T)

  const MAX_INT: int := 0x7FFF_FFFF

  function Min(a: int, b: int): int {
    if a <= b then a else b
  }

  function Max(a: int, b: int): int {
    if a >= b then a else b
  }

  ghost predicate IsLeast(times: set<int>, t: int) {
    t in times && forall u :: u in times ==> t <= u
  }

  lemma HasElement<T(!new)>(items: set<T>) returns (x: T)
    requires items != {}
    ensures x in items
  {
    x :| x in items;
  }

  lemma {:induction false} LeastExists(times: set<int>)
    requires times != {}
    ensures exists t :: IsLeast(times, t)
    decreases |times|
  {
    var x := HasElement(times);
    var rest := times - {x};
    if rest == {} {
      assert times == {x};
      assert IsLeast(times, x);
    } else {
      LeastExists(rest);
      var u :| IsLeast(rest, u);
      assert times == rest + {x};
      assert IsLeast(times, Min(x, u));
    }
  }

  ghost function Least(times: set<int>): (t: int)
    requires times != {}
    ensures IsLeast(times, t)
  {
    LeastExists(times);
    var t :| IsLeast(times, t);
    t
  }
}
