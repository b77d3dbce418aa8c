/** Small shared vocabulary: optional values and the order Python's `sorted` puts on strings. */
module Prelude {

  datatype Option<+T> = None | Some(value: T)

  /** At most the first `n` elements. */
  function Prefix<T>(s: seq<T>, n: nat): seq<T> {
    if n < |s| then s[..n] else s
  }

  /** Lexicographic order on strings by code point. */
  predicate LexLeq(a: string, b: string) {
    a == "" || (b != "" && (a[0] < b[0] || (a[0] == b[0] && LexLeq(a[1..], b[1..]))))
  }

  lemma LexTotal(a: string, b: string)
    ensures LexLeq(a, b) || LexLeq(b, a)
  {
  }

  lemma LexAntisymmetric(a: string, b: string)
    requires LexLeq(a, b) && LexLeq(b, a)
    ensures a == b
  {
    if a != "" && b != "" {
      LexAntisymmetric(a[1..], b[1..]);
      assert a == [a[0]] + a[1..] && b == [b[0]] + b[1..];
    }
  }

  lemma LexTransitive(a: string, b: string, c: string)
    requires LexLeq(a, b) && LexLeq(b, c)
    ensures LexLeq(a, c)
  {
  }

  predicate IsLeast(k: string, s: set<string>) {
    k in s && forall o :: o in s ==> LexLeq(k, o)
  }

  lemma {:induction false} LeastExists(s: set<string>)
    requires s != {}
    ensures exists k :: IsLeast(k, s)
  {
    var x :| x in s;
    LexTotal(x, x);
    if s == {x} {
      assert IsLeast(x, s);
    } else {
      LeastExists(s - {x});
      var y :| IsLeast(y, s - {x});
      LexTotal(x, y);
      if LexLeq(x, y) {
        forall o | o in s ensures LexLeq(x, o) {
          if o != x { LexTransitive(x, y, o); }
        }
        assert IsLeast(x, s);
      } else {
        assert IsLeast(y, s);
      }
    }
  }

  lemma {:induction false} LeastUnique(s: set<string>)
    ensures forall a, b :: IsLeast(a, s) && IsLeast(b, s) ==> a == b
  {
    forall a, b | IsLeast(a, s) && IsLeast(b, s) ensures a == b { LexAntisymmetric(a, b); }
  }

  function Least(s: set<string>): (k: string)
    requires s != {}
    ensures IsLeast(k, s)
  {
    LeastExists(s);
    LeastUnique(s);
    var k :| k in s && IsLeast(k, s); k
  }

  lemma LeastThenRest(s: set<string>, k: string, rest: seq<string>)
    requires IsLeast(k, s) && (forall o :: o in rest <==> o in s - {k})
    ensures forall o :: o in [k] + rest <==> o in s
    ensures forall j :: 0 <= j < |rest| ==> k != rest[j] && LexLeq(k, rest[j])
  {
    forall j | 0 <= j < |rest| ensures k != rest[j] && LexLeq(k, rest[j]) { assert rest[j] in rest; }
  }

  /** The elements of a set of strings in ascending order, as `sorted` returns them. */
  function Sorted(s: set<string>): (r: seq<string>)
    ensures |r| == |s|
    ensures forall k :: k in r <==> k in s
    ensures forall i, j :: 0 <= i < j < |r| ==> r[i] != r[j] && LexLeq(r[i], r[j])
  {
    if s == {} then [] else
      var k := Least(s);
      var rest := Sorted(s - {k});
      LeastThenRest(s, k, rest);
      [k] + rest
  }
}
