/** The deleting half of a retention run: age expiry, then capacity, then the two final limits. */
module RetentionRun {
  import opened PathOrder
  import opened Pods
  import opened RetentionTree
  import opened Retention

  /** What one run is given: its roots and mode, the clock, and what it will observe. The gate
      and the open/mounted evidence may answer differently at every observation; use and free
      space depend only on which names are left. */
  datatype Setting = Setting(
    roots: seq<Root>, execute: bool, now: int,
    used: set<Path> -> real, available: set<Path> -> int,
    gate: nat -> bool, held: nat -> Held)

  /** Its newest leaf is as old as its root's days allow, or older. */
  ghost predicate Expired(s: Setting, c: Candidate) {
    c.root < |s.roots| && c.latest <= s.now - s.roots[c.root].days * 86_400_000_000_000
  }

  lemma ExpiredMeans(s: Setting, c: Candidate)
    requires c.root < |s.roots|
    ensures Expired(s, c) <==> c.latest <= s.now - s.roots[c.root].days * DAY
  {
  }

  ghost function Aged(s: Setting, cs: seq<Candidate>): seq<Candidate> {
    if cs == [] then []
    else Aged(s, cs[..|cs| - 1]) + if Expired(s, cs[|cs| - 1]) then [cs[|cs| - 1]] else []
  }

  ghost function Rest(s: Setting, cs: seq<Candidate>): seq<Candidate> {
    if cs == [] then []
    else Rest(s, cs[..|cs| - 1]) + if Expired(s, cs[|cs| - 1]) then [] else [cs[|cs| - 1]]
  }

  function Paths(cs: seq<Candidate>): seq<Path> {
    seq(|cs|, i requires 0 <= i < |cs| => cs[i].path)
  }

  /** The names left of `names` when every tree in `gone` is removed whole. */
  ghost function Left(names: set<Path>, gone: seq<Path>): set<Path> {
    set q | q in names && forall d :: d in gone ==> !(d <= q)
  }

  /** Use once the expired candidates and the first `k` others are gone. */
  ghost function UsedAfter(s: Setting, names: set<Path>, cs: seq<Candidate>, k: nat): real
    requires k <= |Rest(s, cs)|
  {
    s.used(Left(names, Due(s, cs, k)))
  }

  ghost function Due(s: Setting, cs: seq<Candidate>, k: nat): seq<Path>
    requires k <= |Rest(s, cs)|
  {
    Paths(Aged(s, cs)) + Paths(Rest(s, cs)[..k])
  }

  ghost predicate Pressed(s: Setting, names: set<Path>, cs: seq<Candidate>) {
    UsedAfter(s, names, cs, 0) >= 67.0
  }

  /** `k` is the least number of unexpired candidates that suffices, or all if none does. */
  ghost predicate Least(s: Setting, names: set<Path>, cs: seq<Candidate>, k: nat) {
    && k <= |Rest(s, cs)|
    && if Pressed(s, names, cs) then
         && (forall j :: 0 <= j < k ==> UsedAfter(s, names, cs, j) > 65.0)
         && (k < |Rest(s, cs)| ==> UsedAfter(s, names, cs, k) <= 65.0)
       else k == 0
  }

  /** How many are deleted under pressure is determined by the tree alone. */
  lemma LeastIsUnique(s: Setting, names: set<Path>, cs: seq<Candidate>, j: nat, k: nat)
    requires Least(s, names, cs, j) && Least(s, names, cs, k)
    ensures j == k
  {
  }

  lemma LeastExists(s: Setting, names: set<Path>, cs: seq<Candidate>) returns (k: nat)
    ensures Least(s, names, cs, k)
  {
    hide UsedAfter;
    k := 0;
    if Pressed(s, names, cs) {
      while k < |Rest(s, cs)| && UsedAfter(s, names, cs, k) > 65.0
        invariant k <= |Rest(s, cs)| && forall j :: 0 <= j < k ==> UsedAfter(s, names, cs, j) > 65.0
      {
        k := k + 1;
      }
    }
  }

  /** Nothing but the run itself changes anything: the gate stays open, the evidence stays the
      same, and no root lies inside another. */
  ghost predicate Undisturbed(s: Setting) {
    && (forall n :: s.gate(n)) && (forall n :: s.held(n) == s.held(0))
    && (forall i, j :: 0 <= i < j < |s.roots| ==> Apart(s.roots[i].path, s.roots[j].path))
  }

  /** The tree at `c` shares no link with any tree in `gone`. */
  ghost predicate FreeOf(fs: Files, c: Path, gone: seq<Path>) {
    forall p :: p in gone ==> NoSharedLinks(fs, c, p)
  }

  /** No tree in `ps` shares a link with one before it. */
  ghost predicate LinkFree(fs: Files, ps: seq<Path>) {
    forall j :: 0 <= j < |ps| ==> FreeOf(fs, ps[j], ps[..j])
  }

  /** `done` is the longest first part of `due` that is link-free. */
  ghost predicate LongestFree(fs: Files, due: seq<Path>, done: seq<Path>) {
    done <= due && LinkFree(fs, done) && (|done| < |due| ==> !LinkFree(fs, due[..|done| + 1]))
  }

  lemma LinkFreeNext(fs: Files, ps: seq<Path>, p: Path)
    ensures LinkFree(fs, ps + [p]) <==> LinkFree(fs, ps) && FreeOf(fs, p, ps)
  {
    var qs := ps + [p];
    assert forall j :: 0 <= j < |ps| ==> qs[j] == ps[j] && qs[..j] == ps[..j];
    assert qs[|ps|] == p && qs[..|ps|] == ps;
  }

  lemma LinkFreePrefix(fs: Files, ps: seq<Path>, qs: seq<Path>)
    requires ps <= qs && LinkFree(fs, qs)
    ensures LinkFree(fs, ps)
  {
    assert forall j :: 0 <= j < |ps| ==> ps[j] == qs[j] && ps[..j] == qs[..j];
  }

  /** The whole of `due` is done exactly when it is link-free. */
  lemma LongestFreeIsAllIff(fs: Files, due: seq<Path>, done: seq<Path>)
    requires LongestFree(fs, due, done)
    ensures done == due <==> LinkFree(fs, due)
  {
    hide LinkFree;
    if |done| < |due| && LinkFree(fs, due) {
      LinkFreePrefix(fs, due[..|done| + 1], due);
    }
  }

  /** Some link or directory of the tree at `c` bears a later change time than at the start. */
  ghost predicate Broken(start: Files, fs: Files, c: Path) {
    exists q :: q in start && q in fs && c <= q && start[q].kind != Regular && start[q].ctime < fs[q].ctime
  }

  /** How far the tree has come since `start`, with the trees in `removed` gone whole. */
  ghost predicate Underway(s: Setting, start: Files, cs: seq<Candidate>, fs: Files, removed: seq<Path>) {
    && fs.Keys == Left(start.Keys, removed)
    && (forall q :: q in fs ==> q in start && SameNode(start[q], fs[q]))
    && (forall p :: p in removed ==> p in Paths(cs))
    && (forall q :: q in fs ==> start[q].ctime <= fs[q].ctime)
    && (Undisturbed(s) ==> forall c :: c in cs && c.path !in removed ==> Marked(start, fs, c.path, removed))
  }

  /** The tree at `c` is as selected if it shares no link with what was removed, and else bears
      the mark of it. */
  ghost predicate Marked(start: Files, fs: Files, c: Path, removed: seq<Path>) {
    if FreeOf(start, c, removed) then SamePrints(start, fs, c) else Broken(start, fs, c)
  }

  /** The candidate's root is in place and the candidate is idle under the proof it was
      selected by, at observation `n`. */
  ghost predicate Unchanged(s: Setting, device: int, fs: Files, c: Candidate, n: nat) {
    && c.root < |s.roots|
    && var root := s.roots[c.root].path;
       && root in fs && fs[root].kind == Directory && fs[root].id.dev == device
       && Accepts(fs, c.path, ScopeOf(root, device, s.held(n))) && IsProof(fs, c.path, c.proof)
  }

  /** At observation `n`, between two open gates, nothing below `p` was open or mounted, of the
      entries left when the trees in `before` were gone. */
  ghost predicate CheckedAt(s: Setting, start: Files, before: seq<Path>, p: Path, n: nat) {
    && n > 0 && s.gate(n - 1) && s.gate(n + 1)
    && forall q :: q in start && p <= q && (forall d :: d in before ==> !(d <= q)) ==>
         start[q].id !in s.held(n).busy && start[q].id !in s.held(n).mounted
  }

  /** Each removed tree was so checked, at the observations `checks`. */
  ghost predicate Checked(s: Setting, start: Files, removed: seq<Path>, checks: seq<nat>) {
    |checks| == |removed| && forall j :: 0 <= j < |removed| ==> CheckedAt(s, start, removed[..j], removed[j], checks[j])
  }

  lemma CheckedNext(s: Setting, start: Files, removed: seq<Path>, checks: seq<nat>, p: Path, n: nat)
    requires Checked(s, start, removed, checks) && CheckedAt(s, start, removed, p, n)
    ensures Checked(s, start, removed + [p], checks + [n])
  {
    hide CheckedAt;
    var rs, ns := removed + [p], checks + [n];
    forall j | 0 <= j < |rs| ensures CheckedAt(s, start, rs[..j], rs[j], ns[j]) {
      if j < |removed| {
        assert rs[..j] == removed[..j] && rs[j] == removed[j] && ns[j] == checks[j];
      } else {
        assert rs[..j] == removed;
      }
    }
  }

  lemma AcceptedIsChecked(s: Setting, device: int, start: Files, cs: seq<Candidate>, fs: Files, removed: seq<Path>, c: Candidate, n: nat)
    requires Underway(s, start, cs, fs, removed) && Unchanged(s, device, fs, c, n)
    requires n > 0 && s.gate(n - 1) && s.gate(n + 1)
    ensures CheckedAt(s, start, removed, c.path, n)
  {
    hide Marked; hide Undisturbed; hide IsProof; hide Paths;
    forall q | q in start && c.path <= q && (forall d :: d in removed ==> !(d <= q))
      ensures start[q].id !in s.held(n).busy && start[q].id !in s.held(n).mounted
    {
      assert q in Left(start.Keys, removed);
      assert q in fs && SameNode(start[q], fs[q]);
    }
  }

  // -------------------------------------------------------------- what a deletion keeps

  lemma LeftNext(names: set<Path>, gone: seq<Path>, p: Path, fs: Files)
    requires fs.Keys == Left(names, gone)
    ensures fs.Keys - Under(fs, p) == Left(names, gone + [p])
  {
    forall q | q in fs.Keys - Under(fs, p) ensures q in Left(names, gone + [p]) {
      forall d | d in gone + [p] ensures !(d <= q) {
        assert d in gone || d == p;
      }
    }
    forall q | q in Left(names, gone + [p]) ensures q in fs.Keys - Under(fs, p) {
      assert p in gone + [p];
      forall d | d in gone ensures !(d <= q) {
        assert d in gone + [p];
      }
    }
  }

  lemma CandidatesApart(s: Setting, fs: Files, cs: seq<Candidate>, c: Candidate, d: Candidate)
    requires Selection(fs, s.roots, s.held(0), cs) && Undisturbed(s) && c in cs && d in cs && c.path != d.path
    ensures Apart(c.path, d.path)
  {
    hide IsProof; hide IsAge; hide Accepts; hide ChildNames; hide Sooner;
    assert Describes(fs, s.roots, s.held(0), c) && Describes(fs, s.roots, s.held(0), d);
    var a, b := s.roots[c.root].path, s.roots[d.root].path;
    if c.root == d.root { return; }
    assert Apart(a, b);
    PrefixesNest(a, b, c.path);
    PrefixesNest(a, b, d.path);
    PrefixTransitive(a, c.path, d.path);
    PrefixTransitive(b, d.path, c.path);
    assert a <= c.path && b <= d.path;
  }

  lemma PrefixTransitive(a: Path, b: Path, c: Path)
    ensures a <= b && b <= c ==> a <= c
  {
  }

  /** No root lies inside a candidate. */
  lemma RootsOutside(s: Setting, fs: Files, cs: seq<Candidate>, i: nat, d: Candidate)
    requires Selection(fs, s.roots, s.held(0), cs) && Undisturbed(s) && i < |s.roots| && d in cs
    ensures !(d.path <= s.roots[i].path)
  {
    hide IsProof; hide IsAge; hide Accepts; hide ChildNames; hide Sooner;
    assert Describes(fs, s.roots, s.held(0), d);
    var b := s.roots[d.root].path;
    assert b <= d.path && |b| < |d.path|;
    PrefixTransitive(b, d.path, s.roots[i].path);
    assert i != d.root ==> Apart(b, s.roots[i].path);
  }

  /** A tree apart from every removed one is whole. */
  lemma TreeStays(s: Setting, start: Files, cs: seq<Candidate>, fs: Files, removed: seq<Path>, c: Candidate)
    requires Selection(start, s.roots, s.held(0), cs) && Undisturbed(s) && Underway(s, start, cs, fs, removed)
    requires c in cs && c.path !in removed
    ensures forall q :: q in start && c.path <= q ==> q in fs && SameNode(start[q], fs[q])
  {
    hide Selection; hide Marked; hide SameNode; hide Apart; hide Undisturbed;
    forall q | q in start && c.path <= q ensures q in fs {
      forall p | p in removed ensures !(p <= q) {
        assert p in Paths(cs);
        var j :| 0 <= j < |cs| && Paths(cs)[j] == p;
        assert cs[j] in cs;
        CandidatesApart(s, start, cs, c, cs[j]);
        ApartBelow(c.path, p, q);
      }
      assert q in Left(start.Keys, removed);
    }
  }

  lemma ApartBelow(c: Path, d: Path, q: Path)
    requires Apart(c, d) && c <= q
    ensures !(d <= q) && !IsParent(q, d)
  {
    PrefixesNest(c, d, q);
  }

  /** Whole trees share the links they shared at the start. */
  lemma SharingStays(start: Files, fs: Files, c: Path, d: Path)
    requires forall q :: q in fs ==> q in start && SameNode(start[q], fs[q])
    requires forall q :: q in start && (c <= q || d <= q) ==> q in fs
    ensures NoSharedLinks(start, c, d) <==> NoSharedLinks(fs, c, d)
  {
    if NoSharedLinks(fs, c, d) {
      forall q, r | q in start && c <= q && r in start && d <= r && start[q].kind != Regular ensures start[q].id != start[r].id {
        assert q in fs && r in fs && SameNode(start[q], fs[q]) && SameNode(start[r], fs[r]);
      }
    }
  }

  lemma FreeOfNext(fs: Files, c: Path, gone: seq<Path>, p: Path)
    ensures FreeOf(fs, c, gone + [p]) <==> FreeOf(fs, c, gone) && NoSharedLinks(fs, c, p)
  {
    hide NoSharedLinks;
    assert p in gone + [p];
    assert forall q :: q in gone ==> q in gone + [p];
  }

  /** Sharing a link with a removed tree marks the survivor. */
  lemma SharingBreaks(start: Files, fs: Files, gs: Files, c: Path, d: Path, t: int)
    requires Apart(c, d) && Timely(fs, t) && Shrunk(fs, d, gs) && Stamped(fs, gs, t) && gs.Keys == fs.Keys - Under(fs, d)
    requires forall q :: q in fs ==> q in start && SameNode(start[q], fs[q]) && start[q].ctime <= fs[q].ctime
    requires !NoSharedLinks(fs, c, d)
    ensures Broken(start, gs, c)
  {
    var q, r :| q in fs && c <= q && r in fs && d <= r && fs[q].kind != Regular && fs[q].id == fs[r].id;
    ApartBelow(c, d, q);
    assert q in gs && r !in gs;
    assert SameNode(start[q], fs[q]);
    assert start[q].ctime <= fs[q].ctime <= t < gs[q].ctime;
  }

  /** A broken fingerprint stays broken. */
  lemma BrokenStays(start: Files, fs: Files, gs: Files, c: Path, d: Path, t: int)
    requires Apart(c, d) && Stamped(fs, gs, t) && gs.Keys == fs.Keys - Under(fs, d) && Broken(start, fs, c)
    ensures Broken(start, gs, c)
  {
    var q :| q in start && q in fs && c <= q && start[q].kind != Regular && start[q].ctime < fs[q].ctime;
    ApartBelow(c, d, q);
    assert q in gs && fs[q].ctime <= gs[q].ctime;
  }

  lemma PrintsTwice(fs: Files, gs: Files, hs: Files, c: Path)
    requires SamePrints(fs, gs, c)
    ensures SamePrints(gs, hs, c) ==> SamePrints(fs, hs, c)
  {
  }

  lemma MarkedNext(s: Setting, start: Files, cs: seq<Candidate>, fs: Files, gs: Files, t: int, removed: seq<Path>, c: Candidate, d: Candidate)
    requires Selection(start, s.roots, s.held(0), cs) && Undisturbed(s) && Underway(s, start, cs, fs, removed)
    requires c in cs && c.path !in removed && d in cs && d.path !in removed && d.path != c.path
    requires Timely(fs, t) && Shrunk(fs, c.path, gs) && Stamped(fs, gs, t) && gs.Keys == fs.Keys - Under(fs, c.path)
    ensures Marked(start, gs, d.path, removed + [c.path])
  {
    CandidatesApart(s, start, cs, d, c);
    TreeStays(s, start, cs, fs, removed, c);
    TreeStays(s, start, cs, fs, removed, d);
    SharingStays(start, fs, d.path, c.path);
    FreeOfNext(start, d.path, removed, c.path);
    assert Marked(start, fs, d.path, removed);
    hide Selection; hide Left; hide Timely; hide Shrunk; hide Stamped; hide Paths; hide Apart; hide NoSharedLinks; hide SamePrints;
    hide Broken; hide FreeOf; hide SameNode; hide Undisturbed; hide Under;
    if FreeOf(start, d.path, removed) {
      ProofSurvivesIff(fs, gs, d.path, c.path, t);
      PrintsTwice(start, fs, gs, d.path);
      if !NoSharedLinks(fs, d.path, c.path) { SharingBreaks(start, fs, gs, d.path, c.path, t); }
    } else {
      BrokenStays(start, fs, gs, d.path, c.path, t);
    }
  }

  lemma UnderwayNext(s: Setting, start: Files, cs: seq<Candidate>, fs: Files, gs: Files, t: int, removed: seq<Path>, c: Candidate)
    requires Selection(start, s.roots, s.held(0), cs) && Underway(s, start, cs, fs, removed) && c in cs && c.path !in removed
    requires Timely(fs, t) && Shrunk(fs, c.path, gs) && Stamped(fs, gs, t) && gs.Keys == fs.Keys - Under(fs, c.path)
    ensures Underway(s, start, cs, gs, removed + [c.path])
  {
    hide Selection; hide Left; hide Timely; hide Shrunk; hide Stamped; hide Paths; hide Undisturbed; hide Marked; hide Under; hide SameNode;
    LaterTimes(fs, gs, t);
    LeftNext(start.Keys, removed, c.path, fs);
    KeptNode(fs, c.path, gs);
    NodesTwice(start, fs, gs);
    InPaths(cs, c);
    if Undisturbed(s) {
      forall d | d in cs && d.path !in removed + [c.path] ensures Marked(start, gs, d.path, removed + [c.path]) {
        assert d.path !in removed && d.path != c.path;
        MarkedNext(s, start, cs, fs, gs, t, removed, c, d);
      }
    }
  }

  lemma LaterTimes(fs: Files, gs: Files, t: int)
    requires Stamped(fs, gs, t)
    ensures forall q :: q in gs ==> q in fs && fs[q].ctime <= gs[q].ctime
  {
  }

  lemma InPaths(cs: seq<Candidate>, c: Candidate)
    requires c in cs
    ensures c.path in Paths(cs)
  {
    var i :| 0 <= i < |cs| && cs[i] == c;
    assert Paths(cs)[i] == c.path;
  }

  lemma AcceptedIsFree(fs: Files, p: Path, sc: Scope)
    requires Accepts(fs, p, sc)
    ensures forall q :: q in fs && p <= q ==> fs[q].id !in sc.busy && fs[q].id !in sc.mounted
  {
  }

  lemma ProofTravels(fs: Files, gs: Files, p: Path, proof: Proof)
    requires IsProof(fs, p, proof) && SamePrints(fs, gs, p)
    ensures IsProof(gs, p, proof)
  {
    var paths :| Visits(fs, p, paths) && proof.digest == Entries(fs, p, paths);
    SameEntries(fs, gs, p, paths);
    assert FingerprintOf(fs[p]) == FingerprintOf(gs[p]);
    assert Visits(gs, p, paths);
  }

  /** Undisturbed, a candidate not yet removed passes the recheck exactly when it shares no
      link with what was removed. */
  lemma UnchangedIff(s: Setting, start: Files, cs: seq<Candidate>, fs: Files, removed: seq<Path>, c: Candidate, n: nat)
    requires RootsUsable(start, s.roots) && Selection(start, s.roots, s.held(0), cs) && Undisturbed(s)
    requires Underway(s, start, cs, fs, removed) && c in cs && c.path !in removed
    ensures Unchanged(s, Device(start, s.roots), fs, c, n) <==> FreeOf(start, c.path, removed)
  {
    hide Timely; hide FreeOf; hide IsAge; hide ChildNames; hide Sooner; hide AllOk; hide IsProof; hide SamePrints; hide Broken;
    assert Describes(start, s.roots, s.held(0), c);
    assert s.held(n) == s.held(0);
    assert Marked(start, fs, c.path, removed);
    if FreeOf(start, c.path, removed) {
      var root := s.roots[c.root].path;
      assert s.roots[c.root] in s.roots;
      ProofTravels(start, fs, c.path, c.proof);
      RootStays(s, start, cs, fs, removed, c.root);
      AcceptanceTravels(start, fs, c.path, ScopeOf(root, Device(start, s.roots), s.held(0)));
    } else {
      BrokenSpoils(start, fs, c.path, c.proof);
    }
  }

  lemma PrintsKeepTimes(start: Files, fs: Files, c: Path)
    requires SamePrints(start, fs, c)
    ensures !Broken(start, fs, c)
  {
    forall q | q in start && q in fs && c <= q && start[q].kind != Regular ensures start[q].ctime == fs[q].ctime {
      assert FingerprintOf(start[q]) == FingerprintOf(fs[q]);
    }
  }

  lemma BrokenSpoils(start: Files, fs: Files, c: Path, proof: Proof)
    requires IsProof(start, c, proof) && Broken(start, fs, c)
    ensures !IsProof(fs, c, proof)
  {
    hide SamePrints; hide IsProof; hide Broken;
    if SamePrints(start, fs, c) { PrintsKeepTimes(start, fs, c); }
    if IsProof(fs, c, proof) { ProofsCompareTrees(start, fs, c, proof, proof); }
  }

  lemma AcceptanceTravels(fs: Files, gs: Files, p: Path, sc: Scope)
    requires Accepts(fs, p, sc) && SamePrints(fs, gs, p)
    ensures Accepts(gs, p, sc)
  {
    forall r | r in gs && p <= r ensures EntryOk(gs[r], sc, sc.workspace && r != p) {
      assert FingerprintOf(fs[r]) == FingerprintOf(gs[r]);
    }
  }

  lemma RootStays(s: Setting, start: Files, cs: seq<Candidate>, fs: Files, removed: seq<Path>, i: nat)
    requires RootsUsable(start, s.roots) && Selection(start, s.roots, s.held(0), cs) && Undisturbed(s)
    requires Underway(s, start, cs, fs, removed) && i < |s.roots|
    ensures s.roots[i].path in fs && SameNode(start[s.roots[i].path], fs[s.roots[i].path])
  {
    hide Selection; hide Undisturbed; hide SameNode; hide Marked;
    var root := s.roots[i].path;
    assert s.roots[i] in s.roots;
    forall p | p in removed ensures !(p <= root) {
      assert p in Paths(cs);
      var j :| 0 <= j < |cs| && Paths(cs)[j] == p;
      assert cs[j] in cs;
      RootsOutside(s, start, cs, i, cs[j]);
    }
    assert root in Left(start.Keys, removed);
  }

  // ----------------------------------------------------------------- the two partitions

  lemma {:induction false} PartFacts(s: Setting, cs: seq<Candidate>)
    requires Ranked(cs)
    ensures Ranked(Aged(s, cs)) && Ranked(Rest(s, cs))
    ensures forall c :: c in Aged(s, cs) <==> c in cs && Expired(s, c)
    ensures forall c :: c in Rest(s, cs) <==> c in cs && !Expired(s, c)
  {
    hide Sooner; hide Expired;
    if cs != [] {
      var n := |cs| - 1;
      PartFacts(s, cs[..n]);
      assert cs == cs[..n] + [cs[n]];
      forall c | c in cs[..n] ensures Sooner(c, cs[n]) {
        var i :| 0 <= i < n && cs[i] == c;
      }
      RankedSnoc(Aged(s, cs[..n]), cs[n]);
      RankedSnoc(Rest(s, cs[..n]), cs[n]);
    }
  }

  lemma RankedSnoc(cs: seq<Candidate>, c: Candidate)
    requires Ranked(cs) && forall d :: d in cs ==> Sooner(d, c)
    ensures Ranked(cs + [c])
  {
  }

  lemma Place(fs: Files, roots: seq<Root>, h: Held, c: Candidate)
    requires Describes(fs, roots, h, c)
    ensures c.root < |roots| && c.path == roots[c.root].path + [Name(c)] && IsProof(fs, c.path, c.proof) && IsAge(fs, c.path, c.latest)
  {
  }

  /** Different candidates are different paths. */
  lemma PathsDiffer(s: Setting, fs: Files, cs: seq<Candidate>, c: Candidate, d: Candidate)
    requires DistinctRoots(s.roots) && Selection(fs, s.roots, s.held(0), cs) && c in cs && d in cs && c != d
    ensures c.path != d.path
  {
    hide Describes; hide IsProof; hide IsAge; hide Sooner; hide Eligible;
    Place(fs, s.roots, s.held(0), c);
    Place(fs, s.roots, s.held(0), d);
    if c.path == d.path {
      assert s.roots[c.root].path == c.path[..|c.path| - 1] == s.roots[d.root].path;
      AgeIsUnique(fs, c.path, c.latest, d.latest);
      ProofsCompareTrees(fs, fs, c.path, c.proof, d.proof);
    }
  }

  lemma PathsJoin(a: seq<Candidate>, b: seq<Candidate>)
    ensures Paths(a + b) == Paths(a) + Paths(b)
  {
  }

  lemma {:induction false} AgedPrefix(s: Setting, cs: seq<Candidate>, i: nat)
    requires i <= |cs|
    ensures Aged(s, cs[..i]) <= Aged(s, cs)
    decreases |cs| - i
  {
    if i == |cs| {
      assert cs[..i] == cs;
    } else {
      assert cs[..i + 1][..i] == cs[..i];
      AgedPrefix(s, cs, i + 1);
    }
  }

  // ------------------------------------------------------------------------------- runs

  class Run {
    const s: Setting
    const disk: Disk
    const device: int
    /** The tree and the candidates at the start. */
    ghost const start: Files
    ghost const cs: seq<Candidate>
    var observations: nat
    /** The paths announced, in order. */
    var log: seq<Path>
    ghost var removed: seq<Path>
    /** The observation at which each removed tree was rechecked. */
    ghost var checks: seq<nat>

    ghost predicate Base() {
      && RootsUsable(start, s.roots) && DistinctRoots(s.roots) && device == Device(start, s.roots)
      && Selection(start, s.roots, s.held(0), cs)
    }

    ghost predicate Valid()
      reads this, disk
    {
      && Base() && ParentClosed(disk.fs) && Timely(disk.fs, disk.clock)
      && Underway(s, start, cs, disk.fs, removed) && Checked(s, start, removed, checks)
    }

    constructor (s: Setting, disk: Disk, ghost cs: seq<Candidate>)
      requires ParentClosed(disk.fs) && Timely(disk.fs, disk.clock) && RootsUsable(disk.fs, s.roots) && DistinctRoots(s.roots)
      requires Selection(disk.fs, s.roots, s.held(0), cs)
      ensures Valid() && this.s == s && this.disk == disk && this.cs == cs && start == disk.fs
      ensures log == [] && removed == []
    {
      hide Selection; hide ParentClosed; hide Timely;
      this.s, this.disk, this.cs, this.observations := s, disk, cs, 1;
      start, device := disk.fs, Device(disk.fs, s.roots);
      log, removed, checks := [], [], [];
    }

    /** `gate`. */
    method Gate() returns (open: bool)
      modifies this`observations
      ensures open == s.gate(old(observations)) && observations == old(observations) + 1
    {
      open := s.gate(observations);
      observations := observations + 1;
    }

    /** The inner `delete`. It removes the whole tree of the candidate or, refusing, touches
        nothing; it proceeds exactly when both gates are open and the candidate is still idle
        under the proof it was selected by. */
    method Delete(c: Candidate) returns (ok: bool)
      requires Valid() && c in cs && c.path !in removed
      modifies this, disk
      ensures Valid() && log == old(log) + [c.path]
      ensures ok <==> !s.execute || (s.gate(old(observations)) && Unchanged(s, device, old(disk.fs), c, old(observations) + 1) && s.gate(old(observations) + 2))
      ensures if s.execute && ok then removed == old(removed) + [c.path]
              else disk.fs == old(disk.fs) && removed == old(removed)
      // Nothing in a tree it removes is open or mounted by the evidence taken between the gates.
      ensures s.execute && ok ==> forall q :: q in old(disk.fs) && c.path <= q ==>
                old(disk.fs)[q].id !in s.held(old(observations) + 1).busy && old(disk.fs)[q].id !in s.held(old(observations) + 1).mounted
    {
      hide ParentClosed; hide Checked; hide CheckedAt; hide Timely; hide Underway; hide IsProof; hide Accepts; hide IsAge; hide Shrunk; hide Stamped; hide Selection;
      log := log + [c.path];
      if !s.execute { return true; }
      Candidature(c);
      var open := Gate();
      if !open { return false; }
      var root := s.roots[c.root].path;
      if root !in disk.fs || disk.fs[root].kind != Directory || disk.fs[root].id.dev != device { return false; }
      var sc := ScopeOf(root, device, s.held(observations));
      observations := observations + 1;
      var current := TakeSnapshot(disk.fs, c.path, sc);
      if current.Refuse? { return false; }
      ProofDecides(disk.fs, c.path, current.value.proof, c.proof);
      if current.value.proof != c.proof { return false; }
      open := Gate();
      if !open { return false; }
      ok := RemoveAccepted(disk, c.path, sc, c.proof);
      AcceptedIsChecked(s, device, start, cs, old(disk.fs), removed, c, old(observations) + 1);
      CheckedNext(s, start, removed, checks, c.path, old(observations) + 1);
      AcceptedIsFree(old(disk.fs), c.path, sc);
      removed, checks := removed + [c.path], checks + [old(observations) + 1];
      UnderwayNext(s, start, cs, old(disk.fs), disk.fs, old(disk.clock), old(removed), c);
    }

    /** Age expiry, in rank order. */
    method AgePhase(all: seq<Candidate>) returns (ok: bool, rest: seq<Candidate>)
      requires Valid() && all == cs && log == [] && removed == []
      modifies this, disk
      ensures Valid()
      ensures ok ==> rest == Rest(s, cs) && log == Paths(Aged(s, cs)) && removed == if s.execute then log else []
      ensures !ok ==> s.execute && removed <= Paths(Aged(s, cs)) && |removed| < |Paths(Aged(s, cs))|
      ensures !s.execute ==> disk.fs == old(disk.fs)
      ensures s.execute && Undisturbed(s) ==> LongestFree(start, Paths(Aged(s, cs)), removed)
    {
      hide Underway; hide Checked; hide ParentClosed; hide Timely; hide Selection; hide Undisturbed; hide Unchanged; hide Expired; hide Paths; hide RootsUsable; hide DistinctRoots; hide LinkFree; hide FreeOf;
      hide LongestFree; hide Aged; hide Rest;
      rest := [];
      FreeAtFirst(start);
      Nothing(s, all);
      for i := 0 to |all|
        invariant Valid() && rest == Rest(s, all[..i]) && log == Paths(Aged(s, all[..i]))
        invariant removed == if s.execute then log else []
        invariant !s.execute ==> disk.fs == old(disk.fs)
        invariant s.execute && Undisturbed(s) ==> LinkFree(start, log)
      {
        SnocPart(s, all, i);
        assert all[i] in cs;
        Candidature(all[i]);
        ExpiredMeans(s, all[i]);
        if all[i].latest <= s.now - s.roots[all[i].root].days * DAY {
          PathsJoin(Aged(s, all[..i]), [all[i]]);
          OnePath(all[i]);
          assert Paths(Aged(s, all[..i + 1])) == log + [all[i].path];
          NextOfAll(s, start, cs, i);
          RecheckIff(all[i]);
          LinkFreeNext(start, log, all[i].path);
          ok := Delete(all[i]);
          if !ok {
            AgedPrefix(s, all, i + 1);
            PathsPrefix(Aged(s, all[..i + 1]), Aged(s, cs));
            StoppedAt(start, Paths(Aged(s, cs)), removed, all[i].path);
            return;
          }
        } else {
          rest := rest + [all[i]];
        }
      }
      assert all[..|all|] == all;
      AllFree(start, log);
      return true, rest;
    }

    /** Undisturbed, the next deletion goes ahead exactly when the candidate shares no link with
        what was removed. */
    lemma RecheckIff(c: Candidate)
      requires Valid() && c in cs && c.path !in removed
      ensures Undisturbed(s) ==>
                (s.gate(observations) && Unchanged(s, device, disk.fs, c, observations + 1) && s.gate(observations + 2) <==> FreeOf(start, c.path, removed))
    {
      hide Underway; hide ParentClosed; hide Timely; hide Selection; hide Unchanged; hide RootsUsable; hide DistinctRoots; hide FreeOf;
      if Undisturbed(s) {
        UnchangedIff(s, start, cs, disk.fs, removed, c, observations + 1);
      }
    }

    /** The capacity backstop: only while still above the low mark. */
    method CapacityPhase(rest: seq<Candidate>) returns (ok: bool, pressure: bool, ghost k: nat)
      requires Valid() && rest == Rest(s, cs) && log == Paths(Aged(s, cs)) && removed == if s.execute then log else []
      requires !s.execute ==> disk.fs == start
      requires s.execute && Undisturbed(s) ==> LinkFree(start, log)
      modifies this, disk
      ensures Valid() && k <= |Rest(s, cs)| && removed == if s.execute then Due(s, cs, k) else []
      ensures pressure <==> s.used(old(disk.fs.Keys)) >= 67.0
      ensures !s.execute ==> ok && disk.fs == start && k == if pressure then |rest| else 0
      ensures ok ==> log == Due(s, cs, k)
      ensures s.execute ==> (pressure <==> Pressed(s, start.Keys, cs)) && (ok ==> Least(s, start.Keys, cs, k))
      ensures s.execute ==> forall m :: Least(s, start.Keys, cs, m) ==> k <= m && (ok || k < m)
      ensures s.execute && Undisturbed(s) ==> LinkFree(start, removed) && (!ok ==> k < |Rest(s, cs)| && !LinkFree(start, Due(s, cs, k + 1)))
    {
      hide Underway; hide Checked; hide ParentClosed; hide Timely; hide Selection; hide Undisturbed; hide Unchanged; hide Paths; hide Left; hide LinkFree; hide FreeOf; hide RootsUsable; hide DistinctRoots;
      hide Aged; hide Rest; hide Due;
      pressure := s.used(disk.fs.Keys) >= 67.0;
      k := 0;
      DueNone(s, cs);
      NamesLeft();
      for i := 0 to |rest|
        invariant Valid() && k <= i && log == Due(s, cs, k) && removed == if s.execute then log else []
        invariant !s.execute ==> disk.fs == start && k == if pressure then i else 0
        invariant s.execute ==> (pressure <==> Pressed(s, start.Keys, cs)) && disk.fs.Keys == Left(start.Keys, log)
        invariant !pressure ==> k == 0
        invariant s.execute && pressure ==> forall j :: 0 <= j < k ==> UsedAfter(s, start.Keys, cs, j) > 65.0
        invariant s.execute && Undisturbed(s) ==> LinkFree(start, log)
        invariant s.execute && pressure && k < i ==> UsedAfter(s, start.Keys, cs, k) <= 65.0
      {
        if pressure && s.used(disk.fs.Keys) > 65.0 {
          NextOfRest(s, start, cs, i);
          DueNext(s, cs, i);
          assert k == i;
          RecheckIff(rest[i]);
          LinkFreeNext(start, log, rest[i].path);
          ok := Delete(rest[i]);
          NamesLeft();
          if !ok { return; }
          k := k + 1;
        }
      }
      ok := true;
    }

    lemma Effect()
      requires Valid()
      ensures Checked(s, start, removed, checks)
      ensures disk.fs.Keys == Left(start.Keys, removed)
      ensures forall q :: q in disk.fs ==> q in start && SameNode(start[q], disk.fs[q])
    {
    }

    lemma NamesLeft()
      requires Valid()
      ensures disk.fs.Keys == Left(start.Keys, removed)
    {
    }

    lemma Candidature(c: Candidate)
      requires Base() && c in cs
      ensures c.root < |s.roots| && |c.path| > 0
    {
      Place(start, s.roots, s.held(0), c);
    }
  }

  /** A candidate that is not among `xs` has a path that is not among theirs. */
  lemma NotAmong(s: Setting, fs: Files, cs: seq<Candidate>, xs: seq<Candidate>, c: Candidate)
    requires DistinctRoots(s.roots) && Selection(fs, s.roots, s.held(0), cs)
    requires c in cs && c !in xs && forall d :: d in xs ==> d in cs
    ensures c.path !in Paths(xs)
  {
    hide Selection; hide DistinctRoots;
    forall i | 0 <= i < |xs| ensures Paths(xs)[i] != c.path {
      assert xs[i] in xs;
      PathsDiffer(s, fs, cs, c, xs[i]);
    }
  }

  lemma RankedOnce(cs: seq<Candidate>, i: nat)
    requires Ranked(cs) && i < |cs|
    ensures cs[i] !in cs[..i]
  {
    forall j | 0 <= j < i ensures cs[j] != cs[i] { SoonerIrreflexive(cs[i]); }
  }

  lemma SnocPart(s: Setting, cs: seq<Candidate>, i: nat)
    requires i < |cs|
    ensures Aged(s, cs[..i + 1]) == if Expired(s, cs[i]) then Aged(s, cs[..i]) + [cs[i]] else Aged(s, cs[..i])
    ensures Rest(s, cs[..i + 1]) == if Expired(s, cs[i]) then Rest(s, cs[..i]) else Rest(s, cs[..i]) + [cs[i]]
  {
    assert cs[..i + 1][..i] == cs[..i];
  }

  lemma {:induction false} AgedAmong(s: Setting, cs: seq<Candidate>)
    ensures forall c :: c in Aged(s, cs) ==> c in cs
  {
    if cs != [] {
      AgedAmong(s, cs[..|cs| - 1]);
      assert cs == cs[..|cs| - 1] + [cs[|cs| - 1]];
    }
  }

  lemma OnePath(c: Candidate)
    ensures Paths([c]) == [c.path]
  {
  }

  lemma Nothing(s: Setting, cs: seq<Candidate>)
    ensures Paths(Aged(s, cs[..0])) == [] && Rest(s, cs[..0]) == []
  {
  }

  lemma PathsPrefix(a: seq<Candidate>, b: seq<Candidate>)
    requires a <= b
    ensures Paths(a) <= Paths(b)
  {
  }

  /** `i`-th candidate of the ranking: not removed by the age phase so far. */
  lemma NextOfAll(s: Setting, fs: Files, cs: seq<Candidate>, i: nat)
    requires DistinctRoots(s.roots) && Selection(fs, s.roots, s.held(0), cs) && i < |cs|
    ensures cs[i].path !in Paths(Aged(s, cs[..i]))
  {
    RankedOnce(cs, i);
    AgedAmong(s, cs[..i]);
    hide Ranked; hide DistinctRoots; hide Eligible; hide Describes;
    NotAmong(s, fs, cs, Aged(s, cs[..i]), cs[i]);
  }

  /** `k`-th unexpired candidate: not among the due ones before it. */
  lemma NextOfRest(s: Setting, fs: Files, cs: seq<Candidate>, k: nat)
    requires DistinctRoots(s.roots) && Selection(fs, s.roots, s.held(0), cs) && k < |Rest(s, cs)|
    ensures Rest(s, cs)[k] in cs && Rest(s, cs)[k].path !in Due(s, cs, k)
  {
    PartFacts(s, cs);
    var rest := Rest(s, cs);
    RankedOnce(rest, k);
    assert rest[k] in rest;
    NotAmong(s, fs, cs, Aged(s, cs), rest[k]);
    NotAmong(s, fs, cs, rest[..k], rest[k]);
  }

  lemma DueNext(s: Setting, cs: seq<Candidate>, k: nat)
    requires k < |Rest(s, cs)|
    ensures Due(s, cs, k + 1) == Due(s, cs, k) + [Rest(s, cs)[k].path]
  {
    assert Paths(Rest(s, cs)[..k + 1]) == Paths(Rest(s, cs)[..k]) + [Rest(s, cs)[k].path];
  }

  lemma DueNone(s: Setting, cs: seq<Candidate>)
    ensures Due(s, cs, 0) == Paths(Aged(s, cs))
  {
    assert Paths(Rest(s, cs)[..0]) == [];
  }

  lemma FreeAtFirst(fs: Files)
    ensures LinkFree(fs, [])
  {
  }

  lemma AllFree(fs: Files, due: seq<Path>)
    ensures LinkFree(fs, due) ==> LongestFree(fs, due, due)
  {
    hide LinkFree;
  }

  /** Refused at `p`: what is done is the longest link-free part. */
  lemma StoppedAt(fs: Files, due: seq<Path>, done: seq<Path>, p: Path)
    requires done + [p] <= due
    ensures LinkFree(fs, done) && !LinkFree(fs, done + [p]) ==> LongestFree(fs, due, done)
    ensures |done| < |due|
  {
    hide LinkFree;
    assert due[..|done| + 1] == done + [p];
  }

  lemma DuePrefix(s: Setting, cs: seq<Candidate>, j: nat, k: nat)
    requires j <= k <= |Rest(s, cs)|
    ensures Due(s, cs, j) <= Due(s, cs, k) && |Due(s, cs, k)| == |Aged(s, cs)| + k
    ensures Due(s, cs, k)[..|Due(s, cs, j)|] == Due(s, cs, j)
  {
    PathsPrefix(Rest(s, cs)[..j], Rest(s, cs)[..k]);
  }

  lemma ProofDecides(fs: Files, p: Path, a: Proof, b: Proof)
    requires IsProof(fs, p, a)
    ensures a == b <==> IsProof(fs, p, b)
  {
    if IsProof(fs, p, b) { ProofsCompareTrees(fs, fs, p, a, b); }
  }

  // -------------------------------------------------------------------- the whole run

  /** Entries missing from `kept` all lie in the native cache. */
  ghost predicate OnlyNative(kept: set<Path>, names: set<Path>) {
    kept <= names && forall q :: q in names && q !in kept ==> ["var", "lib", "ci-cache-nocow", "uv"] <= q
  }

  /** The native cache cleaner: any unlinks inside its own root, then any verdict. */
  method CleanNative(disk: Disk) returns (ok: bool)
    requires ParentClosed(disk.fs) && Timely(disk.fs, disk.clock)
    modifies disk
    ensures ParentClosed(disk.fs) && OnlyNative(disk.fs.Keys, old(disk.fs.Keys))
    ensures forall q :: q in disk.fs ==> SameNode(old(disk.fs)[q], disk.fs[q])
  {
    hide ParentClosed; hide Timely; hide Shrunk; hide Stamped;
    var bound: int := *;
    var steps := if bound < 0 then 0 else bound;
    for i := 0 to steps
      invariant ParentClosed(disk.fs) && Timely(disk.fs, disk.clock) && OnlyNative(disk.fs.Keys, old(disk.fs.Keys))
      invariant forall q :: q in disk.fs ==> SameNode(old(disk.fs)[q], disk.fs[q])
    {
      var q: Path := *;
      if q in disk.fs && UV_ROOT <= q && Under(disk.fs, q) == {q} {
        ghost var before := disk.fs;
        assert forall r :: r in before && q <= r ==> r in Under(before, q);
        disk.DropName(q);
        KeptNode(before, q, disk.fs);
      }
    }
    ok := *;
  }

  /** `retain`. */
  method Retain(s: Setting, disk: Disk) 
    returns (ok: bool, log: seq<Path>, ghost cs: seq<Candidate>, ghost removed: seq<Path>, ghost k: nat, ghost checks: seq<nat>)
    requires ParentClosed(disk.fs) && Timely(disk.fs, disk.clock) && DistinctRoots(s.roots)
    modifies disk
    // Unusable roots: refused before anything is looked at.
    ensures !Usable(old(disk.fs), s.roots) ==> !ok && log == removed == [] && disk.fs == old(disk.fs)
    ensures Usable(old(disk.fs), s.roots) ==> Selection(old(disk.fs), s.roots, s.held(0), cs) && Least(s, old(disk.fs.Keys), cs, k)
    // A dry run deletes nothing; under pressure it announces every candidate.
    ensures !s.execute ==> disk.fs == old(disk.fs)
    ensures !s.execute && Usable(old(disk.fs), s.roots) ==>
              ok && log == Due(s, cs, if s.used(disk.fs.Keys) >= 67.0 then |Rest(s, cs)| else 0)
    // However it ends, a first part of the due trees is gone, whole, and nothing else.
    ensures Usable(old(disk.fs), s.roots) ==> removed <= Due(s, cs, k)
    // Each was rechecked between two open gates, and nothing then left in it was open or mounted.
    ensures Checked(s, old(disk.fs), removed, checks)
    ensures OnlyNative(disk.fs.Keys, Left(old(disk.fs.Keys), removed))
    ensures forall q :: q in disk.fs ==> q in old(disk.fs) && SameNode(old(disk.fs)[q], disk.fs[q])
    // A completed run deleted exactly the expired and the shortest sufficient prefix.
    ensures ok && s.execute ==> removed == log == Due(s, cs, k)
    ensures ok && s.execute && Pressed(s, old(disk.fs.Keys), cs) ==> s.used(disk.fs.Keys) <= 65.0 && s.available(disk.fs.Keys) >= 38_857_516_474
    ensures ok && s.execute && Enough(s, old(disk.fs.Keys), cs, k) ==> disk.fs.Keys == Left(old(disk.fs.Keys), removed)
    // Undisturbed, it gets exactly as far as no due tree shares a link with one before it.
    ensures s.execute && Usable(old(disk.fs), s.roots) && Undisturbed(s) ==> LongestFree(old(disk.fs), Due(s, cs, k), removed)
    ensures s.execute && Usable(old(disk.fs), s.roots) && removed == Due(s, cs, k) && Enough(s, old(disk.fs.Keys), cs, k) ==>
              && disk.fs.Keys == Left(old(disk.fs.Keys), removed)
              && (ok <==> Pressed(s, old(disk.fs.Keys), cs) ==> s.available(disk.fs.Keys) >= 38_857_516_474)
  {
    hide Checked; hide ParentClosed; hide Timely; hide Selection; hide Undisturbed; hide Left; hide DistinctRoots; hide RootsUsable; hide Usable; hide Aged; hide Rest; hide Due; hide Paths; hide SameNode; hide LinkFree;
    ok, log, cs, removed, k, checks := false, [], [], [], 0, [];
    UsableIff(disk.fs, s.roots);
    LeftNothing(disk.fs);
    NoneChecked(s, disk.fs);
    if !RootsUsable(disk.fs, s.roots) { return; }
    var all := Gather(disk.fs, s.roots, s.held(0));
    cs := all;
    k := LeastExists(s, disk.fs.Keys, cs);
    DueNone(s, cs);
    DuePrefix(s, cs, 0, k);
    var run := new Run(s, disk, all);
    var fine, rest := run.AgePhase(all);
    log, removed, checks := run.log, run.removed, run.checks;
    run.Effect();
    if !fine {
      StillLongest(old(disk.fs), Paths(Aged(s, cs)), Due(s, cs, k), removed);
      return;
    }
    assert !s.execute ==> disk.fs == run.start;
    var pressure;
    ghost var n;
    fine, pressure, n := run.CapacityPhase(rest);
    log, removed, checks := run.log, run.removed, run.checks;
    run.Effect();
    if s.execute { DuePrefix(s, cs, n, k); }
    if !fine {
      DuePrefix(s, cs, n + 1, k);
      DuePrefix(s, cs, n, n + 1);
      DuePrefix(s, cs, 0, n);
      return;
    }
    if s.execute { LeastIsUnique(s, old(disk.fs.Keys), cs, n, k); }
    if s.execute && pressure && s.used(disk.fs.Keys) > 65.0 {
      ghost var before := disk.fs;
      fine := CleanNative(disk);
      NodesTwice(run.start, before, disk.fs);
      if !fine { return; }
    }
    if s.execute && pressure && s.used(disk.fs.Keys) > 65.0 { return; }
    if s.execute && pressure && s.available(disk.fs.Keys) < COLD_RESERVE { return; }
    ok := true;
  }

  lemma StillLongest(fs: Files, due: seq<Path>, more: seq<Path>, done: seq<Path>)
    requires due <= more && |done| < |due| && done <= due
    ensures done <= more && (LongestFree(fs, due, done) ==> LongestFree(fs, more, done))
  {
    hide LinkFree;
    assert more[..|done| + 1] == due[..|done| + 1];
  }

  /** After the due deletions the low mark is met, or it was never needed. */
  ghost predicate Enough(s: Setting, names: set<Path>, cs: seq<Candidate>, k: nat) {
    k <= |Rest(s, cs)| && (!Pressed(s, names, cs) || UsedAfter(s, names, cs, k) <= 65.0)
  }

  lemma NodesTwice(fs: Files, gs: Files, hs: Files)
    requires forall q :: q in gs ==> q in fs && SameNode(fs[q], gs[q])
    requires forall q :: q in hs ==> q in gs && SameNode(gs[q], hs[q])
    ensures forall q :: q in hs ==> q in fs && SameNode(fs[q], hs[q])
  {
  }

  lemma NoneChecked(s: Setting, fs: Files)
    ensures Checked(s, fs, [], [])
  {
  }

  lemma LeftNothing(fs: Files)
    ensures Left(fs.Keys, []) == fs.Keys && forall q :: q in fs ==> SameNode(fs[q], fs[q])
  {
  }
}
