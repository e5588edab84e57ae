/**
 The default ordering JavaScript's `Array.prototype.sort` applies to strings
 (character by character, a proper prefix first), and the ascending
 enumeration of a set of keys that `Object.keys(m).sort()` produces.
 */
module StringOrder {

  /** `a` sorts strictly before `b`. */
  predicate Less(a: string, b: string) {
    if |a| == 0 then |b| > 0
    else if |b| == 0 then false
    else if a[0] != b[0] then a[0] < b[0]
    else Less(a[1..], b[1..])
  }

  lemma {:induction false} LessIrreflexive(a: string)
    ensures !Less(a, a)
  {
    if |a| > 0 {
      LessIrreflexive(a[1..]);
    }
  }

  lemma {:induction false} LessTransitive(a: string, b: string, c: string)
    requires Less(a, b) && Less(b, c)
    ensures Less(a, c)
  {
    if |a| > 0 && a[0] == b[0] && b[0] == c[0] {
      LessTransitive(a[1..], b[1..], c[1..]);
    }
  }

  /** Any two different strings are ordered one way or the other. */
  lemma {:induction false} LessTotal(a: string, b: string)
    requires a != b
    ensures Less(a, b) || Less(b, a)
  {
    if |a| > 0 && |b| > 0 && a[0] == b[0] {
      assert a == [a[0]] + a[1..] && b == [b[0]] + b[1..];
      LessTotal(a[1..], b[1..]);
    }
  }

  /** `k` is the first element of `s` in sort order. */
  predicate IsLeast(k: string, s: set<string>) {
    k in s && forall j :: j in s ==> !Less(j, k)
  }

  /** Every non-empty finite set of strings has a first element. */
  lemma {:induction false} LeastExists(s: set<string>)
    requires s != {}
    ensures exists k :: IsLeast(k, s)
    decreases |s|
  {
    var x :| x in s;
    var rest := s - {x};
    if rest == {} {
      assert s == {x};
      LessIrreflexive(x);
      assert IsLeast(x, s);
    } else {
      LeastExists(rest);
      var y :| IsLeast(y, rest);
      if Less(x, y) {
        forall j | j in s ensures !Less(j, x) {
          if j == x {
            LessIrreflexive(x);
          } else if Less(j, x) {
            LessTransitive(j, x, y);
          }
        }
        assert IsLeast(x, s);
      } else {
        assert IsLeast(y, s);
      }
    }
  }

  /** The first element is unique. */
  lemma LeastUnique(s: set<string>)
    ensures forall a, b :: IsLeast(a, s) && IsLeast(b, s) ==> a == b
  {
    forall a, b | IsLeast(a, s) && IsLeast(b, s) ensures a == b {
      if a != b {
        LessTotal(a, b);
      }
    }
  }

  /** The first element sorts strictly before every other element. */
  lemma LeastBeforeRest(k: string, s: set<string>)
    requires IsLeast(k, s)
    ensures forall j :: j in s && j != k ==> Less(k, j)
  {
    forall j | j in s && j != k ensures Less(k, j) {
      LessTotal(k, j);
    }
  }

  /** Every element sorts strictly before every later one (so none repeats). */
  predicate Ascending(xs: seq<string>) {
    forall i, j :: 0 <= i < j < |xs| ==> Less(xs[i], xs[j])
  }

  /**
   The keys of a set in ascending order, each exactly once: the first one,
   then the rest sorted.
   */
  function SortedKeys(keys: set<string>): (xs: seq<string>)
    ensures Ascending(xs)
    ensures forall k :: k in xs <==> k in keys
    ensures |xs| == |keys|
    decreases |keys|
  {
    if keys == {} then []
    else
      LeastExists(keys);
      LeastUnique(keys);
      var k :| IsLeast(k, keys);
      LeastBeforeRest(k, keys);
      var rest := SortedKeys(keys - {k});
      PrependLeast(k, rest);
      [k] + rest
  }

  /** An element before every element of an ascending sequence can go in front of it. */
  lemma PrependLeast(k: string, rest: seq<string>)
    requires Ascending(rest)
    requires forall j :: j in rest ==> Less(k, j)
    ensures Ascending([k] + rest)
  {
    var xs := [k] + rest;
    forall i, j | 0 <= i < j < |xs| ensures Less(xs[i], xs[j]) {
      assert xs[j] == rest[j - 1];
      if i == 0 {
        assert rest[j - 1] in rest;
      } else {
        assert xs[i] == rest[i - 1];
      }
    }
  }
}
