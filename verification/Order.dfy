/** The order in which ordered maps and sets visit their string keys. */
module Order {

  /** Code-point order, which is the byte order of the UTF-8 keys. */
  predicate Leq(a: string, b: string) {
    a == [] || (b != [] && (a[0] < b[0] || (a[0] == b[0] && Leq(a[1..], b[1..]))))
  }

  lemma {:induction false} LeqTotal(a: string, b: string)
    ensures Leq(a, b) || Leq(b, a)
    decreases |a|
  {
    if a != [] && b != [] {
      LeqTotal(a[1..], b[1..]);
    }
  }

  lemma {:induction false} LeqTransitive(a: string, b: string, c: string)
    requires Leq(a, b) && Leq(b, c)
    ensures Leq(a, c)
    decreases |a|
  {
    if a != [] && a[0] == b[0] && b[0] == c[0] {
      LeqTransitive(a[1..], b[1..], c[1..]);
    }
  }

  lemma {:induction false} LeqAntisymmetric(a: string, b: string)
    requires Leq(a, b) && Leq(b, a)
    ensures a == b
    decreases |a|
  {
    if a != [] {
      LeqAntisymmetric(a[1..], b[1..]);
      assert a == [a[0]] + a[1..] && b == [b[0]] + b[1..];
    }
  }

  predicate IsLeast(m: string, keys: set<string>) {
    m in keys && forall k :: k in keys ==> Leq(m, k)
  }

  lemma {:induction false} LeastExists(keys: set<string>)
    requires keys != {}
    ensures exists m :: IsLeast(m, keys)
    decreases |keys|
  {
    var k :| k in keys;
    var rest := keys - {k};
    LeqTotal(k, k);
    if rest == {} {
      assert keys == {k};
      assert IsLeast(k, keys);
    } else {
      LeastExists(rest);
      var m :| IsLeast(m, rest);
      LeqTotal(k, m);
      if Leq(m, k) {
        assert IsLeast(m, keys);
      } else {
        forall x | x in keys
          ensures Leq(k, x)
        {
          if x != k {
            LeqTransitive(k, m, x);
          }
        }
        assert IsLeast(k, keys);
      }
    }
  }

  ghost function Sorted(keys: set<string>): (ks: seq<string>)
    ensures forall k :: k in ks <==> k in keys
    ensures forall i, j :: 0 <= i < j < |ks| ==> ks[i] != ks[j]
  {
    if keys == {} then []
    else
      LeastExists(keys);
      var m :| IsLeast(m, keys);
      [m] + Sorted(keys - {m})
  }

  lemma LeastIsSorted(keys: set<string>, m: string)
    requires IsLeast(m, keys)
    ensures Sorted(keys) == [m] + Sorted(keys - {m})
  {
    var first := Sorted(keys)[0];
    LeastExists(keys);
    assert IsLeast(first, keys);
    LeqAntisymmetric(first, m);
  }

  lemma LeastComesNext(ks: seq<string>, left: set<string>, m: string)
    requires IsLeast(m, left)
    ensures ks + Sorted(left) == ks + [m] + Sorted(left - {m})
  {
    LeastIsSorted(left, m);
    assert ks + ([m] + Sorted(left - {m})) == ks + [m] + Sorted(left - {m});
  }

  method Least(keys: set<string>) returns (m: string)
    requires keys != {}
    ensures IsLeast(m, keys)
  {
    LeastExists(keys);
    m :| IsLeast(m, keys);
  }

  /** The keys in order. Any way to pick the least is the same way. */
  method KeysInOrder(keys: set<string>) returns (ks: seq<string>)
    ensures ks == Sorted(keys)
  {
    var left := keys;
    ks := [];
    while left != {}
      invariant ks + Sorted(left) == Sorted(keys)
      decreases |left|
    {
      var m := Least(left);
      LeastComesNext(ks, left, m);
      ks := ks + [m];
      left := left - {m};
    }
  }
}
