/**
 * Iterating a Python `set`: the loop visits every element once, in an order
 * the language does not fix. The model makes that order an explicit sequence.
 */
module Collections {

  /** The elements of `order`, as a set. */
  function Elements<T(==)>(order: seq<T>): set<T> {
    set x | x in order
  }

  /** No element occurs twice in `order`. */
  predicate Distinct<T(==)>(order: seq<T>) {
    forall i, j | 0 <= i < j < |order| :: order[i] != order[j]
  }

  /** `order` is one of the orders in which a `for` loop may visit `s`. */
  predicate Enumerates<T(==)>(order: seq<T>, s: set<T>) {
    Distinct(order) && Elements(order) == s
  }

  /** An enumeration visits as many elements as the set has. */
  lemma {:induction false} EnumeratesSize<T>(order: seq<T>, s: set<T>)
    requires Enumerates(order, s)
    ensures |order| == |s|
    decreases |order|
  {
    if |order| > 0 {
      var last := order[|order| - 1];
      var front := order[..|order| - 1];
      assert order == front + [last];
      assert last !in front by {
        forall i | 0 <= i < |front| ensures front[i] != last {
          assert front[i] == order[i];
        }
      }
      assert Elements(front) == s - {last} by {
        forall x ensures x in Elements(front) <==> x in s - {last} {
          if x in front {
            var i :| 0 <= i < |front| && front[i] == x;
            assert order[i] == x;
          }
        }
      }
      EnumeratesSize(front, s - {last});
    }
  }

  /** Extending an enumeration of `s` by a fresh element enumerates the larger set. */
  lemma EnumeratesSnoc<T>(order: seq<T>, s: set<T>, x: T)
    requires Enumerates(order, s) && x !in s
    ensures Enumerates(order + [x], s + {x})
  {
    var o := order + [x];
    assert Elements(o) == s + {x} by {
      forall y ensures y in Elements(o) <==> y in s + {x} {
        if y in order {
          var i :| 0 <= i < |order| && order[i] == y;
          assert o[i] == y;
        }
        if y == x {
          assert o[|order|] == x;
        }
      }
    }
    forall i, j | 0 <= i < j < |o| ensures o[i] != o[j] {
      if j == |order| {
        assert o[i] == order[i] && order[i] in Elements(order);
      } else {
        assert o[i] == order[i] && o[j] == order[j];
      }
    }
  }

  /** Three appends in a row append their concatenation. */
  lemma AppendThree<T>(a: seq<T>, b: seq<T>, c: seq<T>, d: seq<T>)
    ensures a + b + c + d == a + (b + c + d)
  {
  }

  lemma AppendAssoc<T>(a: seq<T>, b: seq<T>, c: seq<T>)
    ensures a + b + c == a + (b + c)
  {
  }

  lemma ElementsAppend<T>(a: seq<T>, b: seq<T>)
    ensures Elements(a + b) == Elements(a) + Elements(b)
  {
  }

  lemma AppendNil<T>(a: seq<T>)
    ensures a + [] == a
  {
  }
}
