/** The two tree walks of the cache retention worker: the metadata snapshot that proves a
    candidate idle and unchanged, and the no-follow deletion. */
module RetentionTree {
  import opened PathOrder
  import opened Pods

  datatype FileKind = Regular | Directory | Symlink | Special

  datatype Id = Id(dev: int, ino: int)

  datatype Stat = Stat(id: Id, kind: FileKind, mode: int, uid: int, gid: int, size: int, mtime: int, ctime: int)

  /** The directory tree of one host: every path with the status of what it names. A link is
      a leaf; nothing here resolves one. */
  type Files = map<Path, Stat>

  /** Open and mounted inodes, the cleanup device, and whether nested links are admitted. */
  datatype Scope = Scope(device: int, busy: set<Id>, mounted: set<Id>, workspace: bool)

  ghost predicate ParentClosed(fs: Files) {
    forall q :: q in fs && |q| > 0 ==> q[..|q| - 1] in fs && fs[q[..|q| - 1]].kind == Directory
  }

  function Under(fs: Files, p: Path): set<Path> {
    set q | q in fs && p <= q
  }

  function ChildNames(fs: Files, p: Path): set<string> {
    set q | q in fs && |q| == |p| + 1 && p <= q :: q[|p|]
  }

  /** `check_entry`. */
  predicate EntryOk(st: Stat, sc: Scope, linkLeaf: bool) {
    && st.id !in sc.busy && st.id !in sc.mounted && st.id.dev == sc.device
    && (st.kind == Directory || st.kind == Regular || (linkLeaf && st.kind == Symlink))
  }

  /** Every entry at or below `q` is closed, not a mount point, on the device, and a directory or
      a regular file, or in a workspace a link; only `root` itself may never be a link. */
  ghost predicate AllOk(fs: Files, q: Path, root: Path, sc: Scope) {
    forall r :: r in fs && q <= r ==>
      && fs[r].id !in sc.busy && fs[r].id !in sc.mounted && fs[r].id.dev == sc.device
      && (fs[r].kind == Directory || fs[r].kind == Regular || (fs[r].kind == Symlink && sc.workspace && r != root))
  }

  lemma ChildIn(fs: Files, q: Path, r: Path)
    requires ParentClosed(fs) && r in fs && q < r
    ensures q + [r[|q|]] <= r && q + [r[|q|]] in fs && r[|q|] in ChildNames(fs, q)
    ensures fs[q].kind == Directory
    decreases |r|
  {
    if |r| == |q| + 1 {
      assert r == q + [r[|q|]];
      assert r[..|r| - 1] == q;
    } else {
      var s := r[..|r| - 1];
      assert q < s && s[|q|] == r[|q|];
      ChildIn(fs, q, s);
      assert q + [r[|q|]] <= s <= r;
    }
  }

  /** A directory in whatever order the kernel lists it. */
  method ListDir(fs: Files, q: Path) returns (names: seq<string>)
    ensures forall x :: x in names <==> x in ChildNames(fs, q)
    ensures forall i, j :: 0 <= i < j < |names| ==> names[i] != names[j]
  {
    names := [];
    var rest := ChildNames(fs, q);
    while rest != {}
      invariant rest <= ChildNames(fs, q)
      invariant forall x :: x in names <==> x in ChildNames(fs, q) && x !in rest
      invariant forall i, j :: 0 <= i < j < |names| ==> names[i] != names[j]
      decreases rest
    {
      var x :| x in rest;
      names, rest := names + [x], rest - {x};
    }
  }

  // --------------------------------------------------------------------------- snapshot

  /** What is fingerprinted of an entry: for a regular file everything but its ctime, which
      unlinking another hard link changes. */
  datatype Fingerprint = Fingerprint(id: Id, kind: FileKind, mode: int, uid: int, gid: int, size: int, mtime: int, ctime: Option<int>)

  datatype Entry = Entry(relative: Path, mark: Fingerprint)

  /** The proof of a tree: the digest, as the injective function SHA-256 of the ordered
      entries is taken to be, and the identity of the root. */
  datatype Proof = Proof(digest: seq<Entry>, rootId: Id)

  datatype Snapshot = Snapshot(proof: Proof, age: int)

  function FingerprintOf(st: Stat): Fingerprint {
    Fingerprint(st.id, st.kind, st.mode, st.uid, st.gid, st.size, st.mtime, if st.kind == Regular then None else Some(st.ctime))
  }

  function EntryOf(fs: Files, root: Path, q: Path): Entry
    requires q in fs && root <= q
  {
    Entry(q[|root|..], FingerprintOf(fs[q]))
  }

  /** A link is as fresh as the later of its own times; its target is never consulted. */
  function LeafTime(st: Stat): int {
    if st.kind == Symlink && st.ctime > st.mtime then st.ctime else st.mtime
  }

  ghost predicate IsLeaf(fs: Files, q: Path) {
    q in fs && fs[q].kind != Directory
  }

  ghost predicate Ordered(paths: seq<Path>) {
    forall i, j :: 0 <= i < j < |paths| ==> PathLess(paths[i], paths[j])
  }

  /** `paths` lists exactly the entries at or below `q`, in order. */
  ghost predicate Visits(fs: Files, q: Path, paths: seq<Path>) {
    Ordered(paths) && forall r :: r in paths <==> r in fs && q <= r
  }

  function Entries(fs: Files, root: Path, paths: seq<Path>): seq<Entry>
    requires forall r :: r in paths ==> r in fs && root <= r
  {
    seq(|paths|, i requires 0 <= i < |paths| => EntryOf(fs, root, paths[i]))
  }

  ghost predicate IsProof(fs: Files, p: Path, proof: Proof) {
    && p in fs && proof.rootId == fs[p].id
    && exists paths :: Visits(fs, p, paths) && proof.digest == Entries(fs, p, paths)
  }

  /** The newest leaf, links taken at the later of their two times, or the newest directory of a
      tree without leaves. */
  ghost predicate IsAge(fs: Files, p: Path, age: int) {
    if exists q :: p <= q && IsLeaf(fs, q) then
      && (exists q :: p <= q && IsLeaf(fs, q) && (age == fs[q].mtime || (fs[q].kind == Symlink && age == fs[q].ctime)))
      && (forall q :: p <= q && IsLeaf(fs, q) ==> fs[q].mtime <= age && (fs[q].kind == Symlink ==> fs[q].ctime <= age))
    else
      && (exists q :: p <= q && q in fs && age == fs[q].mtime)
      && (forall q :: p <= q && q in fs ==> fs[q].mtime <= age)
  }

  function Max(a: Option<int>, b: int): Option<int> {
    if a.Some? && a.value >= b then a else Some(b)
  }

  /** `now` is the maximum of `before` and the times in `ts`. */
  ghost predicate Raised(before: Option<int>, now: Option<int>, ts: set<int>) {
    && (now.None? <==> before.None? && ts == {})
    && (now.Some? ==> now == before || now.value in ts)
    && (now.Some? ==> (before.Some? ==> before.value <= now.value) && forall t :: t in ts ==> t <= now.value)
  }

  lemma RaisedTwice(a: Option<int>, b: Option<int>, c: Option<int>, s: set<int>, t: set<int>)
    requires Raised(a, b, s) && Raised(b, c, t)
    ensures Raised(a, c, s + t)
  {
    if s + t == {} { assert s == {} && t == {}; }
  }

  ghost function LeafTimes(fs: Files, paths: seq<Path>): set<int> {
    set q | q in paths && q in fs && fs[q].kind != Directory :: LeafTime(fs[q])
  }

  ghost function DirTimes(fs: Files, paths: seq<Path>): set<int> {
    set q | q in paths && q in fs && fs[q].kind == Directory :: fs[q].mtime
  }

  /** The digest and the two maxima of a snapshot in progress. */
  datatype Tally = Tally(digest: seq<Entry>, latestLeaf: Option<int>, latestDirectory: Option<int>)

  /** From `a` to `b` exactly the entries `paths` were recorded, in order. */
  ghost predicate Recorded(fs: Files, root: Path, a: Tally, b: Tally, paths: seq<Path>) {
    && (forall r :: r in paths ==> r in fs && root <= r)
    && b.digest == a.digest + Entries(fs, root, paths)
    && Raised(a.latestLeaf, b.latestLeaf, LeafTimes(fs, paths))
    && Raised(a.latestDirectory, b.latestDirectory, DirTimes(fs, paths))
  }

  lemma RecordedTwice(fs: Files, root: Path, a: Tally, b: Tally, c: Tally, p: seq<Path>, q: seq<Path>)
    requires Recorded(fs, root, a, b, p) && Recorded(fs, root, b, c, q)
    ensures Recorded(fs, root, a, c, p + q)
  {
    JoinListings(fs, root, p, q);
    RaisedTwice(a.latestLeaf, b.latestLeaf, c.latestLeaf, LeafTimes(fs, p), LeafTimes(fs, q));
    RaisedTwice(a.latestDirectory, b.latestDirectory, c.latestDirectory, DirTimes(fs, p), DirTimes(fs, q));
  }

  lemma RecordedOne(fs: Files, root: Path, a: Tally, q: Path)
    requires q in fs && root <= q
    ensures fs[q].kind == Directory ==>
              Recorded(fs, root, a, Tally(a.digest + [EntryOf(fs, root, q)], a.latestLeaf, Max(a.latestDirectory, fs[q].mtime)), [q])
    ensures fs[q].kind != Directory ==>
              Recorded(fs, root, a, Tally(a.digest + [EntryOf(fs, root, q)], Max(a.latestLeaf, LeafTime(fs[q])), a.latestDirectory), [q])
  {
    SingleTimes(fs, q);
    assert Entries(fs, root, [q]) == [EntryOf(fs, root, q)];
  }

  /** The running digest and the nonlocal maxima of one snapshot. */
  class Scan {
    var digest: seq<Entry>
    var latestLeaf: Option<int>
    var latestDirectory: Option<int>

    constructor ()
      ensures Now() == Tally([], None, None)
    {
      digest, latestLeaf, latestDirectory := [], None, None;
    }

    ghost function Now(): Tally
      reads this
    {
      Tally(digest, latestLeaf, latestDirectory)
    }

    /** Depth-first over sorted names. Accepts exactly when every entry passes, and then has
        recorded exactly the subtree, in order. */
    method Visit(fs: Files, root: Path, q: Path, sc: Scope) returns (ok: bool, ghost paths: seq<Path>)
      requires ParentClosed(fs) && root <= q && q in fs
      modifies this
      ensures ok <==> AllOk(fs, q, root, sc)
      ensures ok ==> Visits(fs, q, paths) && Recorded(fs, root, old(Now()), Now(), paths)
      decreases |Under(fs, q)|, 1
    {
      hide Recorded; hide Ordered;
      var st := fs[q];
      paths := [];
      if !EntryOk(st, sc, sc.workspace && q != root) { return false, paths; }
      RecordedOne(fs, root, Now(), q);
      digest := digest + [EntryOf(fs, root, q)];
      if st.kind == Directory {
        latestDirectory := Max(latestDirectory, st.mtime);
        var listing := ListDir(fs, q);
        var names := Sorted(listing);
        label before:
        ok, paths := VisitChildren(fs, root, q, names, sc);
        if ok {
          RecordedTwice(fs, root, old(Now()), old@before(Now()), Now(), [q], paths);
          Whole(fs, q, names, paths);
          paths := [q] + paths;
        }
        ChildrenDecide(fs, q, root, names, sc);
      } else {
        latestLeaf := Max(latestLeaf, LeafTime(st));
        paths := [q];
        NothingBelow(fs, q);
        assert Ordered(paths) by { SingleOrdered(q); }
        return true, paths;
      }
    }

    method VisitChildren(fs: Files, root: Path, q: Path, names: seq<string>, sc: Scope) returns (ok: bool, ghost paths: seq<Path>)
      requires ParentClosed(fs) && root <= q && q in fs && Ascending(names)
      requires forall x :: x in names ==> x in ChildNames(fs, q)
      modifies this
      ensures ok <==> forall x :: x in names ==> AllOk(fs, q + [x], root, sc)
      ensures ok ==> Partly(fs, q, names, |names|, paths) && Recorded(fs, root, old(Now()), Now(), paths)
      decreases |Under(fs, q)|, 0
    {
      hide Recorded; hide AllOk; hide Partly; hide ParentClosed;
      paths := [];
      NothingYet(fs, root, q, names, Now());
      for k := 0 to |names|
        invariant Partly(fs, q, names, k, paths) && Recorded(fs, root, old(Now()), Now(), paths)
        invariant forall i :: 0 <= i < k ==> AllOk(fs, q + [names[i]], root, sc)
      {
        ChildSmaller(fs, q, names[k]);
        label before:
        var fine, sub := Visit(fs, root, q + [names[k]], sc);
        if !fine { return false, paths; }
        Join(fs, q, names, k, paths, sub);
        RecordedTwice(fs, root, old(Now()), old@before(Now()), Now(), paths, sub);
        paths := paths + sub;
      }
      return true, paths;
    }
  }

  lemma SingleOrdered(q: Path)
    ensures Ordered([q])
  {
  }

  /** The children decide for everything below their directory. */
  lemma ChildrenDecide(fs: Files, q: Path, root: Path, names: seq<string>, sc: Scope)
    requires ParentClosed(fs) && q in fs && EntryOk(fs[q], sc, sc.workspace && q != root)
    requires forall x :: x in names <==> x in ChildNames(fs, q)
    ensures AllOk(fs, q, root, sc) <==> forall x :: x in names ==> AllOk(fs, q + [x], root, sc)
  {
    if forall x :: x in names ==> AllOk(fs, q + [x], root, sc) {
      forall r | r in fs && q <= r ensures EntryOk(fs[r], sc, sc.workspace && r != root) {
        if q < r {
          ChildIn(fs, q, r);
          assert AllOk(fs, q + [r[|q|]], root, sc);
        } else {
          assert r == q;
        }
      }
    }
  }

  lemma NothingYet(fs: Files, root: Path, q: Path, names: seq<string>, a: Tally)
    ensures Partly(fs, q, names, 0, []) && Recorded(fs, root, a, a, [])
  {
    assert Entries(fs, root, []) == [];
  }

  /** The directory itself comes before everything below it. */
  lemma WithRoot(fs: Files, q: Path, names: seq<string>, paths: seq<Path>)
    requires q in fs && Partly(fs, q, names, |names|, paths)
    ensures Ordered([q] + paths)
    ensures forall r :: r in [q] + paths <==> r == q || r in paths
  {
    forall j | 0 <= j < |paths| ensures PathLess(q, paths[j]) {
      assert paths[j] in paths;
      BelowFollows(q, paths[j]);
    }
  }

  lemma SingleTimes(fs: Files, q: Path)
    requires q in fs
    ensures LeafTimes(fs, [q]) == if fs[q].kind == Directory then {} else {LeafTime(fs[q])}
    ensures DirTimes(fs, [q]) == if fs[q].kind == Directory then {fs[q].mtime} else {}
  {
    assert q in [q];
  }

  lemma JoinListings(fs: Files, root: Path, a: seq<Path>, b: seq<Path>)
    requires forall r :: r in a + b ==> r in fs && root <= r
    ensures (forall r :: r in a ==> r in fs && root <= r) && (forall r :: r in b ==> r in fs && root <= r)
    ensures Entries(fs, root, a + b) == Entries(fs, root, a) + Entries(fs, root, b)
    ensures LeafTimes(fs, a + b) == LeafTimes(fs, a) + LeafTimes(fs, b)
    ensures DirTimes(fs, a + b) == DirTimes(fs, a) + DirTimes(fs, b)
  {
    assert forall r :: r in a ==> r in a + b;
    assert forall r :: r in b ==> r in a + b;
  }

  /** `paths` lists the subtrees of the first `k` names below `q`, in order. */
  ghost predicate Partly(fs: Files, q: Path, names: seq<string>, k: nat, paths: seq<Path>) {
    && k <= |names| && Ordered(paths)
    && forall r :: r in paths <==> r in fs && q < r && r[|q|] in names[..k]
  }

  lemma ChildSmaller(fs: Files, q: Path, name: string)
    requires name in ChildNames(fs, q) && q in fs
    ensures q + [name] in fs && |Under(fs, q + [name])| < |Under(fs, q)|
  {
    var r :| r in fs && |r| == |q| + 1 && q <= r && r[|q|] == name;
    assert r == q + [name];
    assert Under(fs, q + [name]) <= Under(fs, q) - {q};
    Fewer(Under(fs, q + [name]), Under(fs, q) - {q});
  }

  lemma {:induction false} Fewer<T>(a: set<T>, b: set<T>)
    requires a <= b
    ensures |a| <= |b|
  {
    if a != {} {
      var x :| x in a;
      Fewer(a - {x}, b - {x});
    }
  }

  lemma NothingBelow(fs: Files, q: Path)
    requires ParentClosed(fs) && q in fs && fs[q].kind != Directory
    ensures forall r :: r in fs && q <= r ==> r == q
  {
    forall r | r in fs && q <= r ensures r == q {
      if q < r { ChildIn(fs, q, r); }
    }
  }

  lemma Join(fs: Files, q: Path, names: seq<string>, k: nat, paths: seq<Path>, sub: seq<Path>)
    requires k < |names| && Ascending(names) && Partly(fs, q, names, k, paths) && Visits(fs, q + [names[k]], sub)
    ensures Partly(fs, q, names, k + 1, paths + sub)
  {
    var c := q + [names[k]];
    assert names[..k + 1] == names[..k] + [names[k]];
    forall r ensures c <= r <==> q < r && r[|q|] == names[k] {
      if q < r && r[|q|] == names[k] { assert r[..|q| + 1] == c; }
    }
    forall i, j | 0 <= i < |paths| && 0 <= j < |sub| ensures PathLess(paths[i], sub[j]) {
      var a, b := paths[i], sub[j];
      assert a in paths && b in sub;
      var m :| 0 <= m < k && names[m] == a[|q|];
      assert a[..|q| + 1] == q + [names[m]];
      PreorderFacts(q, names[m], names[k], a, b);
    }
  }

  lemma Whole(fs: Files, q: Path, names: seq<string>, below: seq<Path>)
    requires ParentClosed(fs) && q in fs && Partly(fs, q, names, |names|, below)
    requires forall x :: x in ChildNames(fs, q) ==> x in names
    ensures Visits(fs, q, [q] + below)
  {
    WithRoot(fs, q, names, below);
    hide Ordered; hide ParentClosed;
    assert names[..|names|] == names;
    forall r ensures r in [q] + below <==> r in fs && q <= r {
      if r in fs && q < r { ChildIn(fs, q, r); }
      assert q <= r <==> r == q || q < r;
    }
  }

  ghost predicate Accepts(fs: Files, p: Path, sc: Scope) {
    p in fs && AllOk(fs, p, p, sc)
  }

  /** `snapshot`. */
  method TakeSnapshot(fs: Files, p: Path, sc: Scope) returns (r: Result<Snapshot>)
    requires ParentClosed(fs)
    ensures r.Ok? <==> Accepts(fs, p, sc)
    ensures r.Ok? <==>
            p in fs
            && forall q :: q in fs && p <= q ==>
                 && fs[q].id !in sc.busy && fs[q].id !in sc.mounted && fs[q].id.dev == sc.device
                 && (fs[q].kind == Directory || fs[q].kind == Regular || (fs[q].kind == Symlink && sc.workspace && q != p))
    ensures r.Ok? ==> IsProof(fs, p, r.value.proof) && IsAge(fs, p, r.value.age)
  {
    if p !in fs { return Refuse; }
    var scan := new Scan();
    ghost var start := scan.Now();
    var ok, paths := scan.Visit(fs, p, p, sc);
    if !ok { return Refuse; }
    AgeOf(fs, p, paths, start, scan.Now());
    hide Visits; hide Recorded; hide IsAge; hide AllOk;
    assert scan.digest == Entries(fs, p, paths) by { DigestOf(fs, p, paths, start, scan.Now()); }
    var age := if scan.latestLeaf.Some? then scan.latestLeaf.value else scan.latestDirectory.value;
    return Ok(Snapshot(Proof(scan.digest, fs[p].id), age));
  }

  lemma DigestOf(fs: Files, p: Path, paths: seq<Path>, a: Tally, b: Tally)
    requires Recorded(fs, p, a, b, paths) && a.digest == []
    ensures (forall r :: r in paths ==> r in fs && p <= r) && b.digest == Entries(fs, p, paths)
  {
  }

  lemma AgeOf(fs: Files, p: Path, paths: seq<Path>, a: Tally, b: Tally)
    requires p in fs && Visits(fs, p, paths) && Recorded(fs, p, a, b, paths) && a == Tally([], None, None)
    ensures b.latestLeaf.Some? || b.latestDirectory.Some?
    ensures IsAge(fs, p, if b.latestLeaf.Some? then b.latestLeaf.value else b.latestDirectory.value)
  {
    hide Ordered; hide Entries;
    assert forall q :: p <= q && IsLeaf(fs, q) ==> q in paths && LeafTime(fs[q]) in LeafTimes(fs, paths);
    assert forall q :: p <= q && q in fs && fs[q].kind == Directory ==> q in paths && fs[q].mtime in DirTimes(fs, paths);
    assert p in paths;
    if fs[p].kind == Directory { assert fs[p].mtime in DirTimes(fs, paths); } else { assert IsLeaf(fs, p); }
    if b.latestLeaf.Some? {
      var q :| q in paths && q in fs && fs[q].kind != Directory && LeafTime(fs[q]) == b.latestLeaf.value;
      assert p <= q && IsLeaf(fs, q);
    } else {
      var q :| q in paths && q in fs && fs[q].kind == Directory && fs[q].mtime == b.latestDirectory.value;
      assert p <= q && q in fs && fs[q].mtime == b.latestDirectory.value;
      assert forall q :: p <= q ==> !IsLeaf(fs, q);
    }
  }

  lemma {:induction false} OrderedUnique(a: seq<Path>, b: seq<Path>)
    requires Ordered(a) && Ordered(b) && forall q :: q in a <==> q in b
    ensures a == b
  {
    SameEmpty(a, b);
    if a != [] {
      assert a[0] in b && b[0] in a;
      if a[0] != b[0] {
        var i :| 0 <= i < |b| && b[i] == a[0];
        var j :| 0 <= j < |a| && a[j] == b[0];
        PathTransitive(a[0], b[0], a[0]);
        PathIrreflexive(a[0]);
      }
      HeadOnce(a);
      HeadOnce(b);
      assert forall q :: q in a[1..] <==> q in b[1..];
      OrderedUnique(a[1..], b[1..]);
    }
  }

  lemma SameEmpty(a: seq<Path>, b: seq<Path>)
    requires forall q :: q in a <==> q in b
    ensures a == [] <==> b == []
  {
    if a != [] { assert a[0] in b; }
    if b != [] { assert b[0] in a; }
  }

  lemma HeadOnce(a: seq<Path>)
    requires Ordered(a) && a != []
    ensures Ordered(a[1..]) && forall q :: q in a[1..] <==> q in a && q != a[0]
  {
    assert a == [a[0]] + a[1..];
    forall i | 0 < i < |a| ensures a[i] != a[0] { PathIrreflexive(a[i]); }
  }

  /** The two trees at `p` have the same paths with the same identity, kind, mode, owner, size and
      modification time, and but for regular files the same change time. */
  ghost predicate SamePrints(fs: Files, gs: Files, p: Path) {
    forall q :: p <= q ==>
      && (q in fs <==> q in gs)
      && (q in fs ==>
            && fs[q].id == gs[q].id && fs[q].kind == gs[q].kind && fs[q].mode == gs[q].mode && fs[q].uid == gs[q].uid
            && fs[q].gid == gs[q].gid && fs[q].size == gs[q].size && fs[q].mtime == gs[q].mtime
            && (fs[q].kind != Regular ==> fs[q].ctime == gs[q].ctime))
  }

  lemma EntriesInjective(fs: Files, gs: Files, p: Path, a: seq<Path>, b: seq<Path>)
    requires (forall r :: r in a ==> r in fs && p <= r) && (forall r :: r in b ==> r in gs && p <= r)
    requires Entries(fs, p, a) == Entries(gs, p, b)
    ensures a == b && forall r :: r in a ==> FingerprintOf(fs[r]) == FingerprintOf(gs[r])
  {
    assert |a| == |Entries(fs, p, a)| == |b|;
    forall i | 0 <= i < |a| ensures a[i] == b[i] && FingerprintOf(fs[a[i]]) == FingerprintOf(gs[a[i]]) {
      assert a[i] in a && b[i] in b;
      assert Entries(fs, p, a)[i] == EntryOf(fs, p, a[i]) && Entries(gs, p, b)[i] == EntryOf(gs, p, b[i]);
      assert a[i] == p + a[i][|p|..] && b[i] == p + b[i][|p|..];
    }
  }

  /** A proof is determined by the tree whatever order its directories are listed in, and two
      proofs are equal exactly when paths and fingerprints are. */
  lemma ProofsCompareTrees(fs: Files, gs: Files, p: Path, a: Proof, b: Proof)
    requires IsProof(fs, p, a) && IsProof(gs, p, b)
    ensures a == b <==> SamePrints(fs, gs, p)
  {
    hide PathLess; hide Entries;
    var ps :| Visits(fs, p, ps) && a.digest == Entries(fs, p, ps);
    var qs :| Visits(gs, p, qs) && b.digest == Entries(gs, p, qs);
    if a == b {
      EntriesInjective(fs, gs, p, ps, qs);
    }
    if SamePrints(fs, gs, p) {
      OrderedUnique(ps, qs);
      SameEntries(fs, gs, p, ps);
      assert FingerprintOf(fs[p]) == FingerprintOf(gs[p]);
    }
  }

  lemma SameEntries(fs: Files, gs: Files, p: Path, ps: seq<Path>)
    requires SamePrints(fs, gs, p) && forall r :: r in ps ==> r in fs && p <= r
    ensures (forall r :: r in ps ==> r in gs && p <= r) && Entries(fs, p, ps) == Entries(gs, p, ps)
  {
  }

  // --------------------------------------------------------------------------- deletion

  /** What unlinking cannot change of a surviving entry. */
  ghost predicate SameNode(a: Stat, b: Stat) {
    a.id == b.id && a.kind == b.kind && a.mode == b.mode && a.uid == b.uid && a.gid == b.gid
  }

  ghost predicate IsParent(q: Path, p: Path) {
    |p| > 0 && q == p[..|p| - 1]
  }

  /** The effect of deleting some of the entries at or below `top`: nothing is added; outside
      the subtree nothing disappears and, but for the directory holding `top`, only the ctime
      of surviving hard links of deleted inodes changes. */
  ghost predicate Shrunk(fs: Files, top: Path, gs: Files) {
    && (forall q :: q in gs ==> q in fs)
    && (forall q :: q in fs && !(top <= q) ==> q in gs)
    && (forall q :: q in gs ==> SameNode(fs[q], gs[q]))
    && (forall q :: q in gs && !(top <= q) && !IsParent(q, top) ==>
          && gs[q] == fs[q].(ctime := gs[q].ctime)
          && (gs[q] != fs[q] ==> LinkedBelow(fs, top, fs[q].id)))
  }

  /** Some entry at or below `top` is a name of inode `id`. */
  ghost predicate LinkedBelow(fs: Files, top: Path, id: Id) {
    exists r :: r in fs && top <= r && fs[r].id == id
  }

  /** From time `t` on: no change time goes back, and every surviving name of an inode that
      lost a name is stamped after `t`. */
  ghost predicate Stamped(fs: Files, gs: Files, t: int) {
    && (forall q :: q in gs ==> q in fs && fs[q].ctime <= gs[q].ctime)
    && (forall q, r :: q in gs && r in fs && r !in gs && fs[r].id == fs[q].id ==> t < gs[q].ctime)
  }

  ghost predicate Timely(fs: Files, now: int) {
    forall q :: q in fs ==> fs[q].ctime <= now
  }

  lemma StampedTwice(fs: Files, gs: Files, hs: Files, t: int, u: int)
    requires Stamped(fs, gs, t) && Stamped(gs, hs, u) && t <= u && forall q :: q in gs ==> SameNode(fs[q], gs[q])
    ensures Stamped(fs, hs, t)
  {
  }

  lemma ShrunkTwice(fs: Files, top: Path, gs: Files, sub: Path, hs: Files)
    requires Shrunk(fs, top, gs) && Shrunk(gs, sub, hs) && top < sub
    ensures Shrunk(fs, top, hs)
  {
    assert top <= sub[..|sub| - 1];
    assert forall q :: q in fs && sub <= q ==> top <= q;
    forall q | q in hs && !(top <= q) && !IsParent(q, top)
      ensures hs[q] == fs[q].(ctime := hs[q].ctime) && (hs[q] != fs[q] ==> LinkedBelow(fs, top, fs[q].id))
    {
      assert !(sub <= q) && !IsParent(q, sub);
      if hs[q] != gs[q] {
        var r :| r in gs && sub <= r && gs[r].id == gs[q].id;
        assert r in fs && top <= r && fs[r].id == fs[q].id;
      }
    }
  }

  lemma ShrunkRefl(fs: Files, top: Path)
    ensures Shrunk(fs, top, fs)
  {
  }

  /** Acceptance depends only on what deletion elsewhere cannot change. */
  lemma AcceptanceSurvives(fs: Files, gs: Files, c: Path, root: Path, sc: Scope)
    requires (forall q :: q in gs ==> q in fs && SameNode(fs[q], gs[q])) && forall q :: q in fs && c <= q ==> q in gs
    ensures AllOk(gs, c, root, sc) <==> AllOk(fs, c, root, sc)
  {
  }

  /** The mutable tree. */
  class Disk {
    var fs: Files
    var clock: int

    constructor (files: Files, now: int)
      ensures fs == files && clock == now
    {
      fs, clock := files, now;
    }

    /** unlink or rmdir of one name, at a later time than any before. */
    method DropName(q: Path)
      requires ParentClosed(fs) && |q| > 0 && q in fs && forall r :: r in fs && q <= r ==> r == q
      requires Timely(fs, clock)
      modifies this
      ensures ParentClosed(fs) && Shrunk(old(fs), q, fs) && fs.Keys == old(fs).Keys - {q}
      ensures Timely(fs, clock) && old(clock) <= clock && Stamped(old(fs), fs, old(clock))
    {
      hide ParentClosed; hide Shrunk; hide Timely; hide Stamped;
      var size: int := *;
      clock := clock + 1;
      fs := Dropped(fs, q, size, clock);
      DroppedIsClosed(old(fs), q, size, clock);
      DroppedShrinks(old(fs), q, size, clock);
      DroppedIsStamped(old(fs), q, size, clock);
    }

    /** The inner `remove`: depth-first, children in whatever order they are listed. It fails
        exactly when some entry fails the check, or the root is not the expected inode; either
        way it touches nothing outside the subtree. */
    method Remove(q: Path, root: Path, expected: Id, sc: Scope) returns (ok: bool)
      requires ParentClosed(fs) && |q| > 0 && root <= q && Timely(fs, clock)
      modifies this
      ensures ParentClosed(fs) && Shrunk(old(fs), q, fs)
      ensures Timely(fs, clock) && old(clock) <= clock && Stamped(old(fs), fs, old(clock))
      ensures ok <==> q in old(fs) && AllOk(old(fs), q, root, sc) && (q == root ==> old(fs)[q].id == expected)
      ensures ok ==> fs.Keys == old(fs).Keys - Under(old(fs), q)
      decreases |Under(fs, q)|, 1
    {
      hide ParentClosed; hide Shrunk; hide AllOk; hide Timely; hide Stamped;
      ShrunkRefl(fs, q);
      StampedRefl(fs, clock);
      if q !in fs { return false; }
      var st := fs[q];
      AllOkHere(fs, q, root, sc);
      if !EntryOk(st, sc, sc.workspace && q != root) { return false; }
      if q == root && st.id != expected { return false; }
      if st.kind == Directory {
        var names := ListDir(fs, q);
        ok := RemoveChildren(q, names, root, expected, sc);
        ChildrenDecide(old(fs), q, root, names, sc);
        if !ok { return false; }
        KeptNode(old(fs), q, fs);
        var current := fs[q];
        if !EntryOk(current, sc, false) || current.id != st.id || current.mode != st.mode { return false; }
      } else {
        NothingBelow(fs, q);
        LeafDecides(fs, q, root, sc);
        KeptNode(old(fs), q, fs);
      }
      ghost var before, since := fs, clock;
      DropName(q);
      StampedTwice(old(fs), before, fs, old(clock), since);
      ShrunkTwiceSame(old(fs), q, before, fs);
      return true;
    }

    method RemoveChildren(q: Path, names: seq<string>, root: Path, expected: Id, sc: Scope) returns (ok: bool)
      requires ParentClosed(fs) && root <= q && q in fs && Timely(fs, clock)
      requires forall x :: x in names <==> x in ChildNames(fs, q)
      requires forall i, j :: 0 <= i < j < |names| ==> names[i] != names[j]
      modifies this
      ensures ParentClosed(fs) && Shrunk(old(fs), q, fs) && q in fs
      ensures Timely(fs, clock) && old(clock) <= clock && Stamped(old(fs), fs, old(clock))
      ensures ok <==> forall x :: x in names ==> AllOk(old(fs), q + [x], root, sc)
      ensures ok ==> fs.Keys == old(fs).Keys - (Under(old(fs), q) - {q})
      decreases |Under(fs, q)|, 0
    {
      hide ParentClosed; hide Shrunk; hide AllOk; hide Timely; hide Stamped;
      ShrunkRefl(fs, q);
      StampedRefl(fs, clock);
      for k := 0 to |names|
        invariant ParentClosed(fs) && Shrunk(old(fs), q, fs) && q in fs
        invariant Timely(fs, clock) && old(clock) <= clock && Stamped(old(fs), fs, old(clock))
        invariant forall i :: 0 <= i < k ==> AllOk(old(fs), q + [names[i]], root, sc)
        invariant fs.Keys == old(fs).Keys - Gone(old(fs), q, names, k)
      {
        var c := q + [names[k]];
        ChildSmaller(old(fs), q, names[k]);
        StillThere(old(fs), fs, q, names, k);
        AcceptanceSurvives(old(fs), fs, c, root, sc);
        Fewer(Under(fs, c), Under(old(fs), c));
        ghost var before, since := fs, clock;
        var fine := Remove(c, root, expected, sc);
        StampedTwice(old(fs), before, fs, old(clock), since);
        ShrunkTwice(old(fs), q, before, c, fs);
        KeptNode(before, c, fs);
        if !fine { return false; }
        GoneNext(old(fs), before, fs, q, names, k);
      }
      AllGone(old(fs), q, names);
      return true;
    }
  }

  function Dropped(fs: Files, q: Path, size: int, now: int): Files
    requires |q| > 0 && q in fs
  {
    map r | r in fs && r != q ::
      if r == q[..|q| - 1] then fs[r].(size := size, mtime := now, ctime := now)
      else if fs[r].id == fs[q].id then fs[r].(ctime := now)
      else fs[r]
  }

  lemma DroppedIsClosed(fs: Files, q: Path, size: int, now: int)
    requires ParentClosed(fs) && |q| > 0 && q in fs && forall r :: r in fs && q <= r ==> r == q
    ensures ParentClosed(Dropped(fs, q, size, now))
  {
    var gs := Dropped(fs, q, size, now);
    forall r | r in gs && |r| > 0 ensures r[..|r| - 1] in gs && gs[r[..|r| - 1]].kind == Directory {
      assert r[..|r| - 1] in fs && r[..|r| - 1] <= r;
      assert r[..|r| - 1] != q;
    }
  }

  lemma DroppedShrinks(fs: Files, q: Path, size: int, now: int)
    requires |q| > 0 && q in fs && forall r :: r in fs && q <= r ==> r == q
    ensures Shrunk(fs, q, Dropped(fs, q, size, now)) && Dropped(fs, q, size, now).Keys == fs.Keys - {q}
  {
    assert q <= q;
  }

  lemma DroppedIsStamped(fs: Files, q: Path, size: int, now: int)
    requires |q| > 0 && q in fs && Timely(fs, now - 1)
    ensures Stamped(fs, Dropped(fs, q, size, now), now - 1) && Timely(Dropped(fs, q, size, now), now)
  {
  }

  lemma StampedRefl(fs: Files, t: int)
    ensures Stamped(fs, fs, t)
  {
  }

  /** The entries below the first `k` names. */
  ghost function Gone(fs: Files, q: Path, names: seq<string>, k: nat): set<Path>
    requires k <= |names|
  {
    set r | r in fs && q < r && r[|q|] in names[..k]
  }

  lemma AllOkHere(fs: Files, q: Path, root: Path, sc: Scope)
    requires q in fs
    ensures AllOk(fs, q, root, sc) ==> EntryOk(fs[q], sc, sc.workspace && q != root)
  {
    assert q <= q;
  }

  lemma LeafDecides(fs: Files, q: Path, root: Path, sc: Scope)
    requires q in fs && forall r :: r in fs && q <= r ==> r == q
    ensures AllOk(fs, q, root, sc) <==> EntryOk(fs[q], sc, sc.workspace && q != root)
    ensures Under(fs, q) == {q}
  {
    assert q <= q;
  }

  lemma KeptNode(fs: Files, q: Path, gs: Files)
    requires Shrunk(fs, q, gs)
    ensures forall r :: r in gs ==> r in fs && SameNode(fs[r], gs[r])
    ensures forall r :: r in fs && !(q <= r) ==> r in gs
  {
  }

  lemma ShrunkTwiceSame(fs: Files, top: Path, gs: Files, hs: Files)
    requires Shrunk(fs, top, gs) && Shrunk(gs, top, hs)
    ensures Shrunk(fs, top, hs)
  {
    forall q | q in hs && !(top <= q) && !IsParent(q, top)
      ensures hs[q] == fs[q].(ctime := hs[q].ctime) && (hs[q] != fs[q] ==> LinkedBelow(fs, top, fs[q].id))
    {
      if hs[q] != gs[q] {
        var r :| r in gs && top <= r && gs[r].id == gs[q].id;
        assert r in fs && top <= r && fs[r].id == fs[q].id;
      }
    }
  }

  lemma ChildPrefix(q: Path, name: string, r: Path)
    ensures q + [name] <= r <==> q < r && r[|q|] == name
  {
    if q < r && r[|q|] == name { assert r[..|q| + 1] == q + [name]; }
  }

  /** Removing earlier siblings leaves the next child's subtree whole. */
  lemma StillThere(fs: Files, gs: Files, q: Path, names: seq<string>, k: nat)
    requires k < |names| && forall i, j :: 0 <= i < j < |names| ==> names[i] != names[j]
    requires Shrunk(fs, q, gs) && gs.Keys == fs.Keys - Gone(fs, q, names, k)
    ensures forall r :: r in fs && q + [names[k]] <= r ==> r in gs
    ensures forall r :: r in gs ==> r in fs && SameNode(fs[r], gs[r])
    ensures Under(gs, q + [names[k]]) == Under(fs, q + [names[k]])
  {
    forall r | r in fs && q + [names[k]] <= r ensures r in gs {
      ChildPrefix(q, names[k], r);
      assert r !in Gone(fs, q, names, k);
    }
  }

  lemma GoneNext(fs: Files, gs: Files, hs: Files, q: Path, names: seq<string>, k: nat)
    requires k < |names| && gs.Keys == fs.Keys - Gone(fs, q, names, k) && hs.Keys == gs.Keys - Under(gs, q + [names[k]])
    ensures hs.Keys == fs.Keys - Gone(fs, q, names, k + 1)
  {
    assert names[..k + 1] == names[..k] + [names[k]];
    forall r ensures r in hs.Keys <==> r in fs.Keys - Gone(fs, q, names, k + 1) {
      ChildPrefix(q, names[k], r);
    }
  }

  lemma AllGone(fs: Files, q: Path, names: seq<string>)
    requires ParentClosed(fs) && forall x :: x in names <==> x in ChildNames(fs, q)
    ensures Gone(fs, q, names, |names|) == Under(fs, q) - {q}
  {
    assert names[..|names|] == names;
    forall r | r in Under(fs, q) - {q} ensures r in Gone(fs, q, names, |names|) {
      assert q <= r && r != q;
      ChildIn(fs, q, r);
    }
  }

  ghost predicate Apart(c: Path, d: Path) {
    !(c <= d) && !(d <= c)
  }

  /** No link or directory below `c` is another name of something below `d`. */
  ghost predicate NoSharedLinks(fs: Files, c: Path, d: Path) {
    forall q, r :: q in fs && c <= q && r in fs && d <= r && fs[q].kind != Regular ==> fs[q].id != fs[r].id
  }

  /** When the tree at `d` has been removed, the tree at `c` still has its proof exactly when
      it shares no link with what was removed: shared regular files do no harm, because their
      change time is not fingerprinted. */
  lemma ProofSurvivesIff(fs: Files, gs: Files, c: Path, d: Path, t: int)
    requires Apart(c, d) && Timely(fs, t)
    requires Shrunk(fs, d, gs) && Stamped(fs, gs, t) && gs.Keys == fs.Keys - Under(fs, d)
    ensures SamePrints(fs, gs, c) <==> NoSharedLinks(fs, c, d)
  {
    forall q | q in fs && c <= q ensures q in gs && !(d <= q) && !IsParent(q, d) {
      PrefixesNest(c, d, q);
    }
    if SamePrints(fs, gs, c) {
      forall q, r | q in fs && c <= q && r in fs && d <= r && fs[q].kind != Regular ensures fs[q].id != fs[r].id {
        assert FingerprintOf(fs[q]) == FingerprintOf(gs[q]);
        assert fs[q].ctime <= t && r !in gs;
      }
    }
  }

  lemma PrefixesNest(c: Path, d: Path, q: Path)
    ensures c <= q && d <= q ==> c <= d || d <= c
    ensures c <= q && IsParent(q, d) ==> c <= d
  {
    if c <= q && d <= q {
      if |c| <= |d| { assert c == q[..|c|] == d[..|c|]; } else { assert d == q[..|d|] == c[..|d|]; }
    }
    if c <= q && IsParent(q, d) { assert q <= d; }
  }

  /** `remove_tree` on the evidence of an accepted snapshot and an unchanged tree. */
  method RemoveAccepted(disk: Disk, p: Path, sc: Scope, proof: Proof) returns (ok: bool)
    requires ParentClosed(disk.fs) && Timely(disk.fs, disk.clock) && |p| > 0
    requires Accepts(disk.fs, p, sc) && IsProof(disk.fs, p, proof)
    modifies disk
    ensures ok && ParentClosed(disk.fs) && Timely(disk.fs, disk.clock)
    ensures Shrunk(old(disk.fs), p, disk.fs) && disk.fs.Keys == old(disk.fs).Keys - Under(old(disk.fs), p)
    ensures old(disk.clock) <= disk.clock && Stamped(old(disk.fs), disk.fs, old(disk.clock))
  {
    hide ParentClosed; hide Shrunk; hide Timely; hide Stamped; hide AllOk;
    ok := disk.Remove(p, p, proof.rootId, sc);
  }
}
