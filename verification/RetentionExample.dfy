/** A concrete tree on which a retention run that nothing disturbs refuses its own candidate. */
module RetentionExample {
  import opened PathOrder
  import opened Pods
  import opened RetentionTree
  import opened Retention
  import opened RetentionRun

  const TREE_A: Path := WORKSPACE_ROOT + ["a"]
  const TREE_B: Path := WORKSPACE_ROOT + ["b"]

  function Folder(ino: int): Stat {
    Stat(Id(1, ino), Directory, 0, 0, 0, 0, 0, 0)
  }

  /** Two names of one symbolic link. */
  const LINK := Stat(Id(1, 100), Symlink, 0, 0, 0, 0, 0, 0)

  const TREE: Files := map[
    [] := Folder(1), ["var"] := Folder(2), ["var", "lib"] := Folder(3), WORKSPACE_ROOT := Folder(4),
    TREE_A := Folder(5), TREE_B := Folder(6), TREE_A + ["l"] := LINK, TREE_B + ["l"] := LINK]

  const ROOTS := [Root(WORKSPACE_ROOT, 7)]

  const SETTING := Setting(ROOTS, true, 100 * DAY, _ => 0.0, _ => 0, _ => true, _ => Held({}, {}))

  lemma Keeps(up: Path, name: string)
    ensures (up + [name])[..|up + [name]| - 1] == up
  {
  }

  lemma TreeIsClosed()
    ensures ParentClosed(TREE)
  {
    Keeps([], "var");
    Keeps(["var"], "lib");
    Keeps(["var", "lib"], "ci-builds-nocow");
    Keeps(WORKSPACE_ROOT, "a");
    Keeps(WORKSPACE_ROOT, "b");
    Keeps(TREE_A, "l");
    Keeps(TREE_B, "l");
    assert WORKSPACE_ROOT == ["var", "lib"] + ["ci-builds-nocow"] && ["var", "lib"] == ["var"] + ["lib"] && ["var"] == [] + ["var"];
    assert TREE.Keys == {[], ["var"], ["var", "lib"], WORKSPACE_ROOT, TREE_A, TREE_B, TREE_A + ["l"], TREE_B + ["l"]};
    hide TREE_A; hide TREE_B; hide WORKSPACE_ROOT;
  }

  lemma TreeIsOld()
    ensures Timely(TREE, 0)
  {
  }

  /** Both trees are candidates, long expired. */
  lemma BothEligible(name: string)
    requires name == "a" || name == "b"
    ensures Eligible(TREE, ROOTS, Held({}, {}), 0, name)
    ensures forall age :: IsAge(TREE, WORKSPACE_ROOT + [name], age) ==> age == 0
  {
    var p := WORKSPACE_ROOT + [name];
    assert p in TREE && |p| == 4 && WORKSPACE_ROOT <= p && p[3] == name;
    assert name in ChildNames(TREE, WORKSPACE_ROOT);
    assert p != UV_ROOT by { assert p[2] != UV_ROOT[2]; }
    assert WORKSPACE_ROOT != CACHE_ROOT by { assert WORKSPACE_ROOT[2] != CACHE_ROOT[2]; }
    assert !ImageStore(name) by { assert |name| == 1; }
    assert forall r :: r in TREE && p <= r ==> r == p || r == p + ["l"];
    assert p <= p + ["l"] && IsLeaf(TREE, p + ["l"]);
  }

  lemma Shared()
    ensures !NoSharedLinks(TREE, TREE_A, TREE_B) && !NoSharedLinks(TREE, TREE_B, TREE_A)
  {
    var q, r := TREE_A + ["l"], TREE_B + ["l"];
    assert q in TREE && r in TREE && TREE_A <= q && TREE_B <= r && TREE[q].id == TREE[r].id;
  }

  lemma Undisturbing()
    ensures Undisturbed(SETTING) && RootsUsable(TREE, ROOTS) && DistinctRoots(ROOTS)
  {
  }

  /** A selected path is due when its candidate has expired. */
  lemma IsDue(cs: seq<Candidate>, k: nat, name: string)
    requires Selection(TREE, ROOTS, Held({}, {}), cs) && k <= |Rest(SETTING, cs)| && (name == "a" || name == "b")
    ensures WORKSPACE_ROOT + [name] in Due(SETTING, cs, k)
  {
    BothEligible(name);
    assert Has(cs, 0, name);
    var c :| c in cs && c.root == 0 && Name(c) == name;
    Place(TREE, ROOTS, Held({}, {}), c);
    assert Expired(SETTING, c);
    PartFacts(SETTING, cs);
    InPaths(Aged(SETTING, cs), c);
  }

  /** Two paths that share a link spoil every list with both of them. */
  lemma NotBoth(ps: seq<Path>)
    requires LinkFree(TREE, ps)
    ensures TREE_A !in ps || TREE_B !in ps
  {
    hide NoSharedLinks; hide LinkFree;
    forall i, j | 0 <= i < |ps| && 0 <= j < |ps| && i != j ensures NoSharedLinks(TREE, ps[i], ps[j]) || NoSharedLinks(TREE, ps[j], ps[i]) {
      NotInOrder(ps, i, j);
    }
    assert TREE_A[3] != TREE_B[3];
    Shared();
  }

  lemma NotInOrder(ps: seq<Path>, i: nat, j: nat)
    requires i < |ps| && j < |ps| && i != j && LinkFree(TREE, ps)
    ensures NoSharedLinks(TREE, ps[i], ps[j]) || NoSharedLinks(TREE, ps[j], ps[i])
  {
    hide NoSharedLinks;
    if i < j { assert ps[..j][i] == ps[i] && FreeOf(TREE, ps[j], ps[..j]); }
    else { assert ps[..i][j] == ps[j] && FreeOf(TREE, ps[i], ps[..i]); }
  }

  /** Nothing but the run changes anything, both trees are due, and the run refuses with one of
      them left. */
  method SelfRefusal() returns (ok: bool, ghost cs: seq<Candidate>, ghost removed: seq<Path>, ghost k: nat)
    ensures !ok && Undisturbed(SETTING) && Least(SETTING, TREE.Keys, cs, k)
    ensures TREE_A in Due(SETTING, cs, k) && TREE_B in Due(SETTING, cs, k)
    ensures removed < Due(SETTING, cs, k) && (TREE_A !in removed || TREE_B !in removed)
  {
    hide LinkFree; hide Undisturbed; hide RootsUsable; hide DistinctRoots; hide ParentClosed; hide Timely; hide Selection; hide Due; hide Rest; hide Aged;
    TreeIsClosed();
    TreeIsOld();
    Undisturbing();
    var disk := new Disk(TREE, 0);
    var log;
    ghost var checks;
    ok, log, cs, removed, k, checks := Retain(SETTING, disk);
    IsDue(cs, k, "a");
    IsDue(cs, k, "b");
    NotBoth(removed);
  }
}
