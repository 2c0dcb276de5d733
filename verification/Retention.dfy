/** The bounded retention run: which idle directories it selects, in which order, and how far
    it deletes. */
module Retention {
  import opened PathOrder
  import opened Pods
  import opened RetentionTree

  datatype Root = Root(path: Path, days: nat)

  const WORKSPACE_ROOT: Path := ["var", "lib", "ci-builds-nocow"]
  const CACHE_ROOT: Path := ["var", "lib", "ci-cache-nocow"]
  const UV_ROOT: Path := ["var", "lib", "ci-cache-nocow", "uv"]
  const DAY: int := 86400 * 1_000_000_000
  const COLD_RESERVE: int := 38_857_516_474

  /** Open and mounted inodes as seen at one moment. */
  datatype Held = Held(busy: set<Id>, mounted: set<Id>)

  /** A directory directly below root number `root`, with its proof and age. */
  datatype Candidate = Candidate(root: nat, path: Path, proof: Proof, latest: int)

  predicate Retained(root: Path, name: string) {
    || root + [name] == UV_ROOT
    || (root == CACHE_ROOT && name in ["bun", "cargo", "tools", "python", "managed-python", "uv-tools", "uv-python"])
  }

  predicate ImageStore(name: string) {
    name in ["storage", "docker", "containerd", "containers", "libpod"]
  }

  function ScopeOf(root: Path, device: int, h: Held): Scope {
    Scope(device, h.busy, h.mounted, root == WORKSPACE_ROOT)
  }

  predicate RootsUsable(fs: Files, roots: seq<Root>) {
    && |roots| > 0
    && forall r <- roots :: r.path in fs && fs[r.path].kind == Directory && fs[r.path].id.dev == Device(fs, roots)
  }

  function Device(fs: Files, roots: seq<Root>): int {
    if |roots| > 0 && roots[0].path in fs then fs[roots[0].path].id.dev else 0
  }

  /** There is a root, and all roots are directories on one device. */
  ghost predicate Usable(fs: Files, roots: seq<Root>) {
    && 0 < |roots|
    && forall i :: 0 <= i < |roots| ==>
         roots[i].path in fs && fs[roots[i].path].kind == Directory
         && roots[0].path in fs && fs[roots[i].path].id.dev == fs[roots[0].path].id.dev
  }

  lemma UsableIff(fs: Files, roots: seq<Root>)
    ensures RootsUsable(fs, roots) <==> Usable(fs, roots)
    ensures Usable(fs, roots) ==> Device(fs, roots) == fs[roots[0].path].id.dev
  {
    if RootsUsable(fs, roots) {
      forall i | 0 <= i < |roots| ensures roots[i].path in fs && fs[roots[i].path].kind == Directory && fs[roots[i].path].id.dev == Device(fs, roots) {
        assert roots[i] in roots;
      }
    }
  }

  ghost predicate DistinctRoots(roots: seq<Root>) {
    forall i, j :: 0 <= i < j < |roots| ==> roots[i].path != roots[j].path
  }

  /** The tool and runtime names kept in the shared cache, and the native cleaner's own. */
  ghost predicate KeptName(root: Path, name: string) {
    root == ["var", "lib", "ci-cache-nocow"]
    && name in {"uv", "bun", "cargo", "tools", "python", "managed-python", "uv-tools", "uv-python"}
  }

  /** `name` below root `i` is an idle directory the run may delete: not kept, not named as an
      image store, and with nothing open, mounted, foreign or special in it; links only below the
      workspaces. */
  ghost predicate Eligible(fs: Files, roots: seq<Root>, h: Held, i: nat, name: string) {
    && i < |roots| && !KeptName(roots[i].path, name)
    && name !in {"storage", "docker", "containerd", "containers", "libpod"}
    && var p := roots[i].path + [name];
       && p in fs && fs[p].kind == Directory && roots[0].path in fs
       && AllOk(fs, p, p, Scope(fs[roots[0].path].id.dev, h.busy, h.mounted, roots[i].path == ["var", "lib", "ci-builds-nocow"]))
  }

  lemma ScopeMeans(fs: Files, roots: seq<Root>, i: nat, name: string, h: Held)
    requires i < |roots| && roots[0].path in fs
    ensures ScopeOf(roots[i].path, Device(fs, roots), h)
            == Scope(fs[roots[0].path].id.dev, h.busy, h.mounted, roots[i].path == ["var", "lib", "ci-builds-nocow"])
    ensures Retained(roots[i].path, name) <==> KeptName(roots[i].path, name)
  {
    if roots[i].path + [name] == UV_ROOT {
      assert roots[i].path == UV_ROOT[..3] == CACHE_ROOT && name == UV_ROOT[3];
    }
  }

  ghost predicate Describes(fs: Files, roots: seq<Root>, h: Held, c: Candidate) {
    && |c.path| > 0 && Eligible(fs, roots, h, c.root, Name(c)) && c.path == roots[c.root].path + [Name(c)]
    && IsProof(fs, c.path, c.proof) && IsAge(fs, c.path, c.latest)
  }

  function Name(c: Candidate): string {
    if |c.path| > 0 then c.path[|c.path| - 1] else ""
  }

  /** Workspaces first, oldest first within a root, then by name. */
  ghost predicate Sooner(a: Candidate, b: Candidate) {
    || a.root < b.root
    || (a.root == b.root && (a.latest < b.latest || (a.latest == b.latest && NameLess(Name(a), Name(b)))))
  }

  /** The sort key, compared. */
  predicate KeyLess(a: Candidate, b: Candidate)
    ensures KeyLess(a, b) <==> Sooner(a, b)
  {
    if a.root != b.root then a.root < b.root
    else if a.latest != b.latest then a.latest < b.latest
    else NameLt(Name(a), Name(b))
  }

  lemma SoonerTransitive(a: Candidate, b: Candidate, c: Candidate)
    requires Sooner(a, b) && Sooner(b, c)
    ensures Sooner(a, c)
  {
    if a.root == b.root == c.root && a.latest == b.latest == c.latest { NameTransitive(Name(a), Name(b), Name(c)); }
  }

  lemma SoonerTotal(a: Candidate, b: Candidate)
    requires a.root != b.root || Name(a) != Name(b)
    ensures Sooner(a, b) || Sooner(b, a)
  {
    if Name(a) != Name(b) { NameTotal(Name(a), Name(b)); }
  }

  ghost predicate Ranked(cs: seq<Candidate>) {
    forall i, j :: 0 <= i < j < |cs| ==> Sooner(cs[i], cs[j])
  }

  /** `(i, name)` is one of the first `k` names of root `n` or belongs to an earlier root. */
  ghost predicate Seen(i: nat, name: string, n: nat, names: seq<string>) {
    i < n || (i == n && name in names)
  }

  /** The candidates found so far: all and only the eligible ones, ranked. */
  ghost predicate Found(fs: Files, roots: seq<Root>, h: Held, cs: seq<Candidate>, n: nat, names: seq<string>) {
    && Ranked(cs)
    && (forall c :: c in cs ==> Describes(fs, roots, h, c) && Seen(c.root, Name(c), n, names))
    && (forall i, x :: Eligible(fs, roots, h, i, x) && Seen(i, x, n, names) ==> Has(cs, i, x))
  }

  ghost predicate Has(cs: seq<Candidate>, i: nat, x: string) {
    exists c :: c in cs && c.root == i && Name(c) == x
  }

  ghost predicate Selection(fs: Files, roots: seq<Root>, h: Held, cs: seq<Candidate>) {
    && Ranked(cs)
    && (forall c :: c in cs ==> Describes(fs, roots, h, c))
    && (forall i, x :: Eligible(fs, roots, h, i, x) ==> Has(cs, i, x))
  }

  method Rank(cs: seq<Candidate>, c: Candidate) returns (out: seq<Candidate>)
    requires Ranked(cs) && forall d :: d in cs ==> d.root != c.root || Name(d) != Name(c)
    ensures Ranked(out) && forall d :: d in out <==> d in cs || d == c
  {
    hide Sooner;
    var k := 0;
    while k < |cs| && KeyLess(cs[k], c)
      invariant 0 <= k <= |cs| && forall i :: 0 <= i < k ==> Sooner(cs[i], c)
    {
      k := k + 1;
    }
    if k < |cs| {
      SoonerTotal(cs[k], c);
      forall i | k < i < |cs| ensures Sooner(c, cs[i]) { SoonerTransitive(c, cs[k], cs[i]); }
    }
    InsertRanked(cs, k, c);
    out := cs[..k] + [c] + cs[k..];
  }

  lemma InsertRanked(cs: seq<Candidate>, k: nat, c: Candidate)
    requires Ranked(cs) && k <= |cs|
    requires (forall i :: 0 <= i < k ==> Sooner(cs[i], c)) && forall i :: k <= i < |cs| ==> Sooner(c, cs[i])
    ensures Ranked(cs[..k] + [c] + cs[k..])
    ensures forall d :: d in cs[..k] + [c] + cs[k..] <==> d in cs || d == c
  {
    hide Sooner;
    assert cs == cs[..k] + cs[k..];
  }

  /** The scan of the roots. An entry that fails a check is passed over, not an error. */
  method Gather(fs: Files, roots: seq<Root>, h: Held) returns (cs: seq<Candidate>)
    requires ParentClosed(fs) && RootsUsable(fs, roots) && DistinctRoots(roots)
    ensures Selection(fs, roots, h, cs)
  {
    hide Eligible; hide Describes; hide Ranked; hide ParentClosed;
    cs := [];
    StartFound(fs, roots, h);
    for n := 0 to |roots|
      invariant Found(fs, roots, h, cs, n, [])
    {
      var root := roots[n].path;
      var listing := ListDir(fs, root);
      var names := Sorted(listing);
      assert names[..0] == [];
      for k := 0 to |names|
        invariant Found(fs, roots, h, cs, n, names[..k])
      {
        var r := Inspect(fs, roots, h, n, names[k]);
        cs := Extend(fs, roots, h, cs, n, names, k, r);
      }
      NextRoot(fs, roots, h, cs, n, names);
    }
    EndFound(fs, roots, h, cs);
  }

  lemma StartFound(fs: Files, roots: seq<Root>, h: Held)
    ensures Found(fs, roots, h, [], 0, [])
  {
  }

  lemma EndFound(fs: Files, roots: seq<Root>, h: Held, cs: seq<Candidate>)
    requires Found(fs, roots, h, cs, |roots|, [])
    ensures Selection(fs, roots, h, cs)
  {
    assert forall i, x :: Eligible(fs, roots, h, i, x) ==> Seen(i, x, |roots|, []);
  }

  lemma NextRoot(fs: Files, roots: seq<Root>, h: Held, cs: seq<Candidate>, n: nat, names: seq<string>)
    requires n < |roots| && Found(fs, roots, h, cs, n, names[..|names|])
    requires forall x :: x in ChildNames(fs, roots[n].path) ==> x in names
    ensures Found(fs, roots, h, cs, n + 1, [])
  {
    assert names[..|names|] == names;
    assert forall i, x :: Eligible(fs, roots, h, i, x) && Seen(i, x, n + 1, []) ==> Seen(i, x, n, names);
  }

  /** One entry of a root: a candidate exactly when it is eligible. */
  method Inspect(fs: Files, roots: seq<Root>, h: Held, n: nat, name: string) returns (r: Option<Candidate>)
    requires ParentClosed(fs) && RootsUsable(fs, roots) && n < |roots| && name in ChildNames(fs, roots[n].path)
    ensures r.Some? <==> Eligible(fs, roots, h, n, name)
    ensures r.Some? ==> r.value.root == n && Name(r.value) == name && Describes(fs, roots, h, r.value)
  {
    EligibleIff(fs, roots, h, n, name);
    hide ParentClosed; hide IsProof; hide IsAge; hide Accepts; hide RootsUsable; hide Retained; hide ImageStore; hide Eligible;
    var root := roots[n].path;
    if Retained(root, name) { return None; }
    var p := root + [name];
    NamedChild(fs, root, name);
    if fs[p].kind != Directory { return None; }
    if ImageStore(name) { return None; }
    var s := TakeSnapshot(fs, p, ScopeOf(root, Device(fs, roots), h));
    if s.Refuse? { return None; }
    return Some(Candidate(n, p, s.value.proof, s.value.age));
  }

  /** What the scan tests. */
  lemma EligibleIff(fs: Files, roots: seq<Root>, h: Held, n: nat, name: string)
    requires RootsUsable(fs, roots) && n < |roots|
    ensures var root := roots[n].path;
            Eligible(fs, roots, h, n, name) <==>
            && !Retained(root, name) && !ImageStore(name) && root + [name] in fs && fs[root + [name]].kind == Directory
            && Accepts(fs, root + [name], ScopeOf(root, Device(fs, roots), h))
  {
    UsableIff(fs, roots);
    ScopeMeans(fs, roots, n, name, h);
    hide AllOk; hide RootsUsable; hide Retained; hide KeptName; hide ScopeOf; hide Device;
  }

  lemma NamedChild(fs: Files, root: Path, name: string)
    requires name in ChildNames(fs, root)
    ensures root + [name] in fs
  {
    var q :| q in fs && |q| == |root| + 1 && root <= q && q[|root|] == name;
    assert q == root + [name];
  }

  method Extend(fs: Files, roots: seq<Root>, h: Held, cs: seq<Candidate>, n: nat, names: seq<string>, k: nat, r: Option<Candidate>)
    returns (out: seq<Candidate>)
    requires k < |names| && Ascending(names) && Found(fs, roots, h, cs, n, names[..k])
    requires r.Some? <==> Eligible(fs, roots, h, n, names[k])
    requires r.Some? ==> r.value.root == n && Name(r.value) == names[k] && Describes(fs, roots, h, r.value)
    ensures Found(fs, roots, h, out, n, names[..k + 1])
  {
    hide Eligible; hide Describes; hide Ranked;
    assert names[..k + 1] == names[..k] + [names[k]];
    NotYet(names, k);
    out := cs;
    if r.Some? { out := Rank(cs, r.value); }
    forall i, x | Eligible(fs, roots, h, i, x) && Seen(i, x, n, names[..k + 1]) ensures Has(out, i, x) {
      if i == n && x == names[k] {
        assert r.value in out;
      } else {
        assert Has(cs, i, x);
      }
    }
  }

  lemma NotYet(names: seq<string>, k: nat)
    requires k < |names| && Ascending(names)
    ensures names[k] !in names[..k]
  {
    forall i | 0 <= i < k ensures names[i] != names[k] { NameIrreflexive(names[k]); }
  }

  /** The selection is determined by the tree and the evidence: the order in which directories
      are listed does not matter. */
  lemma SelectionIsUnique(fs: Files, roots: seq<Root>, h: Held, a: seq<Candidate>, b: seq<Candidate>)
    requires Selection(fs, roots, h, a) && Selection(fs, roots, h, b)
    ensures a == b
  {
    SelectionWithin(fs, roots, h, a, b);
    SelectionWithin(fs, roots, h, b, a);
    RankedUnique(a, b);
  }

  lemma SelectionWithin(fs: Files, roots: seq<Root>, h: Held, a: seq<Candidate>, b: seq<Candidate>)
    requires Selection(fs, roots, h, a) && Selection(fs, roots, h, b)
    ensures forall c :: c in a ==> c in b
  {
    hide Eligible; hide IsProof; hide IsAge;
    forall c | c in a ensures c in b {
      assert Describes(fs, roots, h, c) && Has(b, c.root, Name(c));
      var d :| d in b && d.root == c.root && Name(d) == Name(c);
      assert Describes(fs, roots, h, d) && d.path == c.path;
      ProofsCompareTrees(fs, fs, c.path, c.proof, d.proof);
      AgeIsUnique(fs, c.path, c.latest, d.latest);
    }
  }

  lemma AgeIsUnique(fs: Files, p: Path, a: int, b: int)
    requires IsAge(fs, p, a) && IsAge(fs, p, b)
    ensures a == b
  {
  }

  lemma SoonerIrreflexive(a: Candidate)
    ensures !Sooner(a, a)
  {
    NameIrreflexive(Name(a));
  }

  lemma {:induction false} RankedUnique(a: seq<Candidate>, b: seq<Candidate>)
    requires Ranked(a) && Ranked(b) && forall c :: c in a <==> c in b
    ensures a == b
  {
    if a != [] { assert a[0] in b; }
    if b != [] { assert b[0] in a; }
    if a != [] && b != [] {
      if a[0] != b[0] {
        SoonerTransitive(a[0], b[0], a[0]);
        SoonerIrreflexive(a[0]);
      }
      FirstOnce(a);
      FirstOnce(b);
      assert forall c :: c in a[1..] <==> c in b[1..];
      RankedUnique(a[1..], b[1..]);
    }
  }

  lemma FirstOnce(a: seq<Candidate>)
    requires Ranked(a) && a != []
    ensures Ranked(a[1..]) && forall c :: c in a[1..] <==> c in a && c != a[0]
  {
    assert a == [a[0]] + a[1..];
    forall i | 0 < i < |a| ensures a[i] != a[0] { SoonerIrreflexive(a[i]); }
  }
}
