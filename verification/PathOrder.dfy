/** The order in which directory names and relative paths are visited. */
module PathOrder {

  type Path = seq<string>

  /** `a` and `b` agree up to `k`, where `a` ends first or has the smaller character. */
  ghost predicate NameBefore(a: string, b: string, k: nat) {
    && k <= |a| && k < |b| && a[..k] == b[..k]
    && (k == |a| || a[k] < b[k])
  }

  ghost predicate NameLess(a: string, b: string) {
    exists k :: NameBefore(a, b, k)
  }

  /** Code-point order, computed. */
  predicate NameLt(a: string, b: string)
    ensures NameLt(a, b) <==> NameLess(a, b)
  {
    NameLtMeans(a, b);
    if b == "" then false
    else if a == "" then true
    else if a[0] != b[0] then a[0] < b[0]
    else NameLt(a[1..], b[1..])
  }

  lemma NameLtMeans(a: string, b: string)
    ensures b == "" ==> !NameLess(a, b)
    ensures b != "" && a == "" ==> NameLess(a, b)
    ensures a != "" && b != "" && a[0] != b[0] ==> (NameLess(a, b) <==> a[0] < b[0])
    ensures a != "" && b != "" && a[0] == b[0] ==> (NameLess(a, b) <==> NameLess(a[1..], b[1..]))
  {
    if b != "" {
      if a == "" {
        assert NameBefore(a, b, 0);
      } else if a[0] != b[0] {
        if a[0] < b[0] { assert NameBefore(a, b, 0); }
        if NameLess(a, b) {
          var k: nat :| NameBefore(a, b, k);
          if k > 0 { assert a[..k][0] == b[..k][0]; }
        }
      } else {
        if NameLess(a, b) {
          var k: nat :| NameBefore(a, b, k);
          assert a[1..][..k - 1] == a[..k][1..] && b[1..][..k - 1] == b[..k][1..];
          assert NameBefore(a[1..], b[1..], k - 1);
        }
        if NameLess(a[1..], b[1..]) {
          var k: nat :| NameBefore(a[1..], b[1..], k);
          assert a[..k + 1] == [a[0]] + a[1..][..k] && b[..k + 1] == [b[0]] + b[1..][..k];
          assert NameBefore(a, b, k + 1);
        }
      }
    }
  }

  lemma NameTransitive(a: string, b: string, c: string)
    requires NameLess(a, b) && NameLess(b, c)
    ensures NameLess(a, c)
  {
    var j: nat :| NameBefore(a, b, j);
    var k: nat :| NameBefore(b, c, k);
    var m := if j < k then j else k;
    assert a[..m] == a[..j][..m] && b[..m] == b[..j][..m] == b[..k][..m] && c[..m] == c[..k][..m];
    if j < k { assert b[..k][j] == c[..k][j]; }
    if k < j { assert a[..j][k] == b[..j][k]; }
    assert NameBefore(a, c, m);
  }

  lemma NameIrreflexive(a: string)
    ensures !NameLess(a, a)
  {
  }

  lemma {:induction false} NameTotal(a: string, b: string)
    requires a != b
    ensures NameLess(a, b) || NameLess(b, a)
  {
    NameLtMeans(a, b);
    NameLtMeans(b, a);
    if a != "" && b != "" && a[0] == b[0] {
      assert a == [a[0]] + a[1..] && b == [b[0]] + b[1..];
      NameTotal(a[1..], b[1..]);
    }
  }

  // ----------------------------------------------------------------------------- paths

  ghost predicate PathBefore(a: Path, b: Path, k: nat) {
    && k <= |a| && k < |b| && a[..k] == b[..k]
    && (k == |a| || NameLess(a[k], b[k]))
  }

  /** Preorder of a depth-first visit with sorted children. */
  ghost predicate PathLess(a: Path, b: Path) {
    exists k :: PathBefore(a, b, k)
  }

  lemma PathTransitive(a: Path, b: Path, c: Path)
    requires PathLess(a, b) && PathLess(b, c)
    ensures PathLess(a, c)
  {
    var j: nat :| PathBefore(a, b, j);
    var k: nat :| PathBefore(b, c, k);
    var m := if j < k then j else k;
    assert a[..m] == a[..j][..m] && b[..m] == b[..j][..m] == b[..k][..m] && c[..m] == c[..k][..m];
    if j < k {
      assert b[..k][j] == c[..k][j];
    } else if k < j {
      assert a[..j][k] == b[..j][k];
    } else if j < |a| {
      NameTransitive(a[j], b[j], c[j]);
    }
    assert PathBefore(a, c, m);
  }

  lemma PathIrreflexive(a: Path)
    ensures !PathLess(a, a)
  {
  }

  /** A directory precedes everything below it; siblings order their whole subtrees. */
  lemma PreorderFacts(p: Path, a: string, b: string, q: Path, r: Path)
    requires p + [a] <= q && p + [b] <= r && NameLess(a, b)
    ensures PathLess(p, q) && PathLess(q, r)
  {
    assert q[..|p| + 1] == p + [a] && r[..|p| + 1] == p + [b];
    assert q[..|p|] == q[..|p| + 1][..|p|] == p && r[..|p|] == r[..|p| + 1][..|p|] == p;
    assert q[|p|] == a && r[|p|] == b;
    assert PathBefore(p, q, |p|) && PathBefore(q, r, |p|);
  }

  lemma BelowFollows(p: Path, q: Path)
    requires p < q
    ensures PathLess(p, q)
  {
    assert PathBefore(p, q, |p|);
  }

  // -------------------------------------------------------------------- sorted listings

  ghost predicate Ascending(s: seq<string>) {
    forall i, j :: 0 <= i < j < |s| ==> NameLess(s[i], s[j])
  }

  /** `sorted` of a directory listing, in whatever order the listing arrives. */
  method Sorted(listing: seq<string>) returns (s: seq<string>)
    requires forall i, j :: 0 <= i < j < |listing| ==> listing[i] != listing[j]
    ensures Ascending(s) && |s| == |listing|
    ensures forall x :: x in s <==> x in listing
  {
    s := [];
    for n := 0 to |listing|
      invariant Ascending(s) && |s| == n
      invariant forall x :: x in s <==> x in listing[..n]
    {
      var x := listing[n];
      assert x !in listing[..n];
      assert listing[..n + 1] == listing[..n] + [x];
      var k := Position(s, x);
      InsertAscending(s, k, x);
      s := s[..k] + [x] + s[k..];
    }
    assert listing[..|listing|] == listing;
  }

  method Position(s: seq<string>, x: string) returns (k: nat)
    requires Ascending(s) && x !in s
    ensures k <= |s| && (forall i :: 0 <= i < k ==> NameLess(s[i], x)) && (forall i :: k <= i < |s| ==> NameLess(x, s[i]))
  {
    k := 0;
    while k < |s| && NameLt(s[k], x)
      invariant k <= |s| && forall i :: 0 <= i < k ==> NameLess(s[i], x)
    {
      k := k + 1;
    }
    if k < |s| {
      NameTotal(s[k], x);
      forall i | k < i < |s| ensures NameLess(x, s[i]) { NameTransitive(x, s[k], s[i]); }
    }
  }

  lemma InsertAscending(s: seq<string>, k: nat, x: string)
    requires Ascending(s) && k <= |s|
    requires (forall i :: 0 <= i < k ==> NameLess(s[i], x)) && (forall i :: k <= i < |s| ==> NameLess(x, s[i]))
    ensures Ascending(s[..k] + [x] + s[k..])
    ensures forall y :: y in s[..k] + [x] + s[k..] <==> y == x || y in s
  {
    assert s == s[..k] + s[k..];
  }
}
