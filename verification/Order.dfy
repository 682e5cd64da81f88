/** The byte-wise order of keys, which an ordered map iterates in. */
module KeyOrder {

  predicate Less(a: string, b: string)
    decreases |a|
  {
    if |b| == 0 then false
    else if |a| == 0 then true
    else if a[0] != b[0] then a[0] < b[0]
    else Less(a[1..], b[1..])
  }

  lemma {:induction false} LessTotal(a: string, b: string)
    ensures a == b || Less(a, b) || Less(b, a)
    ensures !(Less(a, b) && Less(b, a))
    ensures a == b ==> !Less(a, b)
    decreases |a|
  {
    if |a| != 0 && |b| != 0 && a[0] == b[0] {
      LessTotal(a[1..], b[1..]);
      assert a == [a[0]] + a[1..] && b == [b[0]] + b[1..];
    }
  }

  lemma {:induction false} LessTransitive(a: string, b: string, c: string)
    requires Less(a, b) && Less(b, c)
    ensures Less(a, c)
    decreases |a|
  {
    if |a| != 0 && a[0] == b[0] && b[0] == c[0] {
      LessTransitive(a[1..], b[1..], c[1..]);
    }
  }

  /** The first place where two strings differ. */
  ghost predicate DifferAt(a: string, b: string, i: int) {
    && 0 <= i <= |a| && i <= |b| && a[..i] == b[..i]
    && (i < |a| && i < |b| ==> a[i] != b[i])
  }

  /** The order is that of a dictionary: at the first difference the smaller
      character decides, and a string comes before what it begins. */
  lemma {:induction false} LessExactly(a: string, b: string)
    ensures Less(a, b) <==> exists i :: DifferAt(a, b, i) && i < |b| && (i < |a| ==> a[i] < b[i])
    decreases |a|
  {
    if |a| == 0 || |b| == 0 || a[0] != b[0] {
      assert DifferAt(a, b, 0);
      forall i | DifferAt(a, b, i)
        ensures i == 0
      {
        if i > 0 {
          AgreeFirst(a, b, i);
        }
      }
    } else {
      LessExactly(a[1..], b[1..]);
      forall i: nat
        ensures DifferAt(a, b, i + 1) <==> DifferAt(a[1..], b[1..], i)
      {
        DifferShifts(a, b, i);
      }
      assert !DifferAt(a, b, 0);
      if i :| DifferAt(a, b, i) && i < |b| && (i < |a| ==> a[i] < b[i]) {
        assert DifferAt(a[1..], b[1..], i - 1);
      }
      if i :| DifferAt(a[1..], b[1..], i) && i < |b| - 1 && (i < |a| - 1 ==> a[1..][i] < b[1..][i]) {
        assert DifferAt(a, b, i + 1);
      }
    }
  }

  lemma AgreeFirst(a: string, b: string, i: int)
    requires DifferAt(a, b, i) && i > 0
    ensures a[0] == b[0]
  {
    assert a[0] == a[..i][0] && b[0] == b[..i][0];
  }

  lemma DifferShifts(a: string, b: string, i: nat)
    requires |a| > 0 && |b| > 0 && a[0] == b[0]
    ensures DifferAt(a, b, i + 1) <==> DifferAt(a[1..], b[1..], i)
  {
    if i + 1 <= |a| && i + 1 <= |b| {
      assert a[..i + 1] == [a[0]] + a[1..][..i] && b[..i + 1] == [b[0]] + b[1..][..i];
      if a[..i + 1] == b[..i + 1] {
        assert a[1..][..i] == a[..i + 1][1..] && b[1..][..i] == b[..i + 1][1..];
      }
    }
  }

  predicate IsLeast(k: string, s: set<string>) {
    k in s && forall x | x in s :: x == k || Less(k, x)
  }

  lemma {:induction false} LeastExists(s: set<string>) returns (k: string)
    requires s != {}
    ensures IsLeast(k, s)
    decreases |s|
  {
    k :| k in s;
    if s != {k} {
      var rest := s - {k};
      assert s == {k} + rest;
      var m := LeastExists(rest);
      LessTotal(k, m);
      if Less(m, k) {
        k := m;
      } else {
        forall x | x in s && x != k
          ensures Less(k, x)
        {
          if x != m {
            LessTransitive(k, m, x);
          }
        }
      }
    }
  }

  lemma LeastUnique(s: set<string>)
    ensures forall j, k | IsLeast(j, s) && IsLeast(k, s) :: j == k
  {
    forall j, k | IsLeast(j, s) && IsLeast(k, s)
      ensures j == k
    {
      LessTotal(j, k);
    }
  }

  /** The first key an ordered map visits. */
  function Least(s: set<string>): (k: string)
    requires s != {}
    ensures IsLeast(k, s)
  {
    var _ := LeastWitness(s);
    LeastUnique(s);
    var k :| IsLeast(k, s);
    k
  }

  ghost function LeastWitness(s: set<string>): (b: bool)
    requires s != {}
    ensures exists k :: IsLeast(k, s)
  {
    LeastFound(s);
    true
  }

  lemma LeastFound(s: set<string>)
    requires s != {}
    ensures exists k :: IsLeast(k, s)
  {
    var k := LeastExists(s);
  }

  /** All keys in the order an ordered map visits them. */
  function SortedKeys(s: set<string>): (keys: seq<string>)
    ensures |keys| == |s|
    ensures forall k :: k in keys <==> k in s
    decreases |s|
  {
    if s == {} then []
    else
      var k := Least(s);
      [k] + SortedKeys(s - {k})
  }

  lemma {:induction false} SortedKeysAscend(s: set<string>)
    ensures forall i, j | 0 <= i < j < |SortedKeys(s)| :: Less(SortedKeys(s)[i], SortedKeys(s)[j])
    decreases |s|
  {
    if s != {} {
      var k := Least(s);
      SortedKeysAscend(s - {k});
      forall j | 0 <= j < |SortedKeys(s - {k})|
        ensures Less(k, SortedKeys(s - {k})[j])
      {
        assert SortedKeys(s - {k})[j] in SortedKeys(s - {k});
      }
    }
  }
}
