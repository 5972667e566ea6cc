/** C strings as sequences of characters without the terminating NUL, with the order of strcmp and what it
  * makes of a set of keys. */
module CString {

  /** Byte-wise comparison; a string that ends first is the smaller one, as its NUL compares lowest. */
  function StrCmp(a: string, b: string): int {
    if a == [] then
      if b == [] then 0 else -1
    else if b == [] then 1
    else if a[0] == b[0] then StrCmp(a[1..], b[1..])
    else a[0] as int - b[0] as int
  }

  predicate Less(a: string, b: string) {
    StrCmp(a, b) < 0
  }

  lemma {:induction false} StrCmpEqual(a: string, b: string)
    ensures StrCmp(a, b) == 0 <==> a == b
  {
    if a != [] && b != [] && a[0] == b[0] {
      StrCmpEqual(a[1..], b[1..]);
      assert a == [a[0]] + a[1..] && b == [b[0]] + b[1..];
    }
  }

  lemma {:induction false} StrCmpAntisymmetric(a: string, b: string)
    ensures StrCmp(a, b) < 0 <==> StrCmp(b, a) > 0
    ensures StrCmp(a, b) == 0 <==> StrCmp(b, a) == 0
  {
    if a != [] && b != [] && a[0] == b[0] {
      StrCmpAntisymmetric(a[1..], b[1..]);
    }
  }

  lemma {:induction false} LessTransitive(a: string, b: string, c: string)
    requires Less(a, b) && Less(b, c)
    ensures Less(a, c)
  {
    if a != [] && b != [] && c != [] && a[0] == b[0] && b[0] == c[0] {
      LessTransitive(a[1..], b[1..], c[1..]);
    }
  }

  /** strcmp is a strict total order: exactly one of the three outcomes holds for any pair. */
  lemma LessTotal(a: string, b: string)
    ensures Less(a, b) || a == b || Less(b, a)
    ensures !(Less(a, b) && Less(b, a)) && !Less(a, a)
  {
    StrCmpEqual(a, b);
    StrCmpEqual(a, a);
    StrCmpAntisymmetric(a, b);
  }

  /** The order of strcmp without its loop: a is a proper prefix of b, or has the smaller byte where they first
    * differ. */
  predicate Precedes(a: string, b: string) {
    a < b || exists i :: 0 <= i < |a| && i < |b| && a[..i] == b[..i] && a[i] < b[i]
  }

  lemma {:induction false} LessMeans(a: string, b: string)
    ensures Less(a, b) <==> Precedes(a, b)
  {
    if a != [] && b != [] {
      if a[0] == b[0] {
        LessMeans(a[1..], b[1..]);
        PrecedesTail(a, b);
      } else {
        assert a[..0] == b[..0];
      }
    }
  }

  lemma PrecedesTail(a: string, b: string)
    requires a != [] && b != [] && a[0] == b[0]
    ensures Precedes(a, b) <==> Precedes(a[1..], b[1..])
  {
    var c, d := a[1..], b[1..];
    assert a == [a[0]] + c && b == [b[0]] + d;
    if i :| 0 <= i < |a| && i < |b| && a[..i] == b[..i] && a[i] < b[i] {
      assert c[..i - 1] == a[..i][1..] && d[..i - 1] == b[..i][1..];
    }
    if i :| 0 <= i < |c| && i < |d| && c[..i] == d[..i] && c[i] < d[i] {
      assert a[..i + 1] == [a[0]] + c[..i] && b[..i + 1] == [b[0]] + d[..i];
      assert a[i + 1] < b[i + 1];
    }
  }

  // ---- the keys of a map in order ----

  predicate Least(k: string, keys: set<string>) {
    k in keys && forall x :: x in keys ==> x == k || Less(k, x)
  }

  lemma {:induction false} LeastExists(keys: set<string>) returns (k: string)
    requires keys != {}
    ensures Least(k, keys)
    decreases |keys|
  {
    var first :| first in keys;
    var rest := keys - {first};
    k := first;
    assert forall x :: x in keys && x != first ==> x in rest;
    if rest != {} {
      var r := LeastExists(rest);
      LessTotal(first, r);
      k := if Less(r, first) then r else first;
      forall x | x in keys
        ensures x == k || Less(k, x)
      {
        if x != first && x != r {
          assert x in rest;
          assert Less(r, x);
          if k == first {
            LessTransitive(first, r, x);
          }
        }
      }
    }
  }

  /** The keys of a map in the order of its tree. */
  function Sorted(keys: set<string>): seq<string>
    decreases |keys|
  {
    if keys == {} then []
    else
      assert exists k :: Least(k, keys) by { var k := LeastExists(keys); }
      assert forall a, b :: Least(a, keys) && Least(b, keys) ==> a == b by {
        forall a, b | Least(a, keys) && Least(b, keys)
          ensures a == b
        {
          LessTotal(a, b);
        }
      }
      var k :| Least(k, keys);
      [k] + Sorted(keys - {k})
  }

  lemma SortedFirst(keys: set<string>)
    requires keys != {}
    ensures Sorted(keys) != [] && Least(Sorted(keys)[0], keys)
    ensures Sorted(keys)[1..] == Sorted(keys - {Sorted(keys)[0]})
  {
  }

  lemma {:induction false} SortedKeys(keys: set<string>)
    ensures forall k :: k in Sorted(keys) <==> k in keys
    ensures forall i, j :: 0 <= i < j < |Sorted(keys)| ==> Less(Sorted(keys)[i], Sorted(keys)[j])
    decreases |keys|
  {
    if keys != {} {
      SortedFirst(keys);
      var s, k := Sorted(keys), Sorted(keys)[0];
      SortedKeys(keys - {k});
      hide Sorted;
      assert s == [k] + s[1..];
      forall i, j | 0 <= i < j < |s|
        ensures Less(s[i], s[j])
      {
        assert s[j] == s[1..][j - 1] && s[j] in s[1..];
        assert i > 0 ==> s[i] == s[1..][i - 1];
      }
    }
  }

  /** There is only one such order: whatever lists the keys in ascending order lists them like this. */
  lemma {:induction false} AscendingSorted(s: seq<string>)
    requires forall i, j :: 0 <= i < j < |s| ==> Less(s[i], s[j])
    ensures s == Sorted(set k | k in s)
    decreases |s|
  {
    var keys := set k | k in s;
    if s != [] {
      var rest := set k | k in s[1..];
      AscendingSorted(s[1..]);
      assert Least(s[0], keys) by {
        forall x | x in keys
          ensures x == s[0] || Less(s[0], x)
        {
        }
      }
      LessTotal(s[0], s[0]);
      assert s[0] !in s[1..];
      assert keys - {s[0]} == rest;
      var k := Sorted(keys)[0];
      assert Least(k, keys);
      LessTotal(k, s[0]);
    }
  }
}
