/**
 * The order in which the realtime database hands back the children of a
 * node when the bot iterates them: ascending by key, comparing strings
 * code point by code point.
 */
module KeyOrder {

  /** a sorts before or equal to b, lexicographically by code point. */
  predicate StrLe(a: string, b: string)
    decreases |a|
  {
    a == "" || (b != "" && (a[0] < b[0] || (a[0] == b[0] && StrLe(a[1..], b[1..]))))
  }

  lemma {:induction false} StrLeRefl(a: string)
    ensures StrLe(a, a)
    decreases |a|
  {
    if a != "" {
      StrLeRefl(a[1..]);
    }
  }

  lemma {:induction false} StrLeTotal(a: string, b: string)
    ensures StrLe(a, b) || StrLe(b, a)
    decreases |a|
  {
    if a != "" && b != "" && a[0] == b[0] {
      StrLeTotal(a[1..], b[1..]);
    }
  }

  lemma {:induction false} StrLeAntisym(a: string, b: string)
    requires StrLe(a, b) && StrLe(b, a)
    ensures a == b
    decreases |a|
  {
    if a != "" {
      StrLeAntisym(a[1..], b[1..]);
      assert a == [a[0]] + a[1..] && b == [b[0]] + b[1..];
    }
  }

  lemma {:induction false} StrLeTrans(a: string, b: string, c: string)
    requires StrLe(a, b) && StrLe(b, c)
    ensures StrLe(a, c)
    decreases |a|
  {
    if a != "" && a[0] == b[0] && b[0] == c[0] {
      StrLeTrans(a[1..], b[1..], c[1..]);
    }
  }

  /** k is the smallest key of s. */
  predicate IsLeast(k: string, s: set<string>)
  {
    k in s && forall j :: j in s ==> StrLe(k, j)
  }

  /** Every non-empty finite set of keys has a smallest one. */
  lemma {:induction false} LeastExists(s: set<string>)
    requires s != {}
    ensures exists k :: IsLeast(k, s)
    decreases |s|
  {
    var x :| x in s;
    if s == {x} {
      StrLeRefl(x);
      assert IsLeast(x, s);
    } else {
      LeastExists(s - {x});
      var m :| IsLeast(m, s - {x});
      StrLeTotal(m, x);
      if StrLe(m, x) {
        assert IsLeast(m, s);
      } else {
        forall j | j in s
          ensures StrLe(x, j)
        {
          if j == x {
            StrLeRefl(x);
          } else {
            StrLeTrans(x, m, j);
          }
        }
        assert IsLeast(x, s);
      }
    }
  }

  lemma LeastUnique(s: set<string>)
    ensures forall a, b :: IsLeast(a, s) && IsLeast(b, s) ==> a == b
  {
    forall a, b | IsLeast(a, s) && IsLeast(b, s)
      ensures a == b
    {
      StrLeAntisym(a, b);
    }
  }

  /** The keys of s in ascending order, each once. */
  function Ascending(s: set<string>): (ks: seq<string>)
    ensures |ks| == |s|
    ensures forall k :: k in ks <==> k in s
    ensures forall i, j :: 0 <= i < j < |ks| ==> ks[i] != ks[j]
    ensures forall i, j :: 0 <= i < j < |ks| ==> StrLe(ks[i], ks[j])
    decreases |s|
  {
    if s == {} then []
    else
      LeastExists(s);
      LeastUnique(s);
      var k :| k in s && IsLeast(k, s);
      var rest := Ascending(s - {k});
      LeastFirst(k, s, rest);
      [k] + rest
  }

  /** The least key of s, followed by the other keys in ascending order, lists s in ascending order. */
  lemma LeastFirst(k: string, s: set<string>, rest: seq<string>)
    requires IsLeast(k, s)
    requires |rest| == |s - {k}| && forall x :: x in rest <==> x in s - {k}
    requires forall i, j :: 0 <= i < j < |rest| ==> rest[i] != rest[j] && StrLe(rest[i], rest[j])
    ensures var ks := [k] + rest;
            && |ks| == |s|
            && (forall x :: x in ks <==> x in s)
            && (forall i, j :: 0 <= i < j < |ks| ==> ks[i] != ks[j])
            && (forall i, j :: 0 <= i < j < |ks| ==> StrLe(ks[i], ks[j]))
  {
    var ks := [k] + rest;
    forall i, j | 0 <= i < j < |ks|
      ensures ks[i] != ks[j] && StrLe(ks[i], ks[j])
    {
      if i > 0 {
        assert ks[i] == rest[i - 1] && ks[j] == rest[j - 1];
      } else {
        assert ks[j] == rest[j - 1] && ks[j] in rest;
      }
    }
  }

  /** The keys of a node, in the order the store delivers its children. */
  function SortedKeys<V>(m: map<string, V>): (ks: seq<string>)
    ensures |ks| == |m|
    ensures forall k :: k in ks <==> k in m
    ensures forall i, j :: 0 <= i < j < |ks| ==> ks[i] != ks[j]
    ensures forall i, j :: 0 <= i < j < |ks| ==> StrLe(ks[i], ks[j])
  {
    Ascending(m.Keys)
  }
}
