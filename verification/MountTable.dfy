/** Tables of live mounts, what can happen to two of them at once, and how a handover divides
    the mounts between them. */
module MountTable {
  import opened PathOrder

  datatype Mounted = Mounted(volumeID: string, targetPath: string, cacheDir: string, mountArgs: seq<string>, localSocket: string)

  /** A worker process: the arguments it was started with, whether its exit leaves the mount in
      place, and whether it stands prepared for a hot restart. */
  datatype Worker = Worker(args: seq<string>, preserve: bool, prepared: bool)

  /** How the start of a worker goes: not at all, without its becoming ready, or well. One that
      does not become ready is stopped again. */
  datatype Launch = NotLaunched | Unready | Ready

  datatype Entry = Entry(mount: Mounted, worker: Worker)

  datatype Startup = FreshStart | TookOver(imported: nat)

  const ADOPT: seq<string> := ["-dirAutoCreate=true", "-hotRestart.mountFd=3", "-hotRestart.adoptLiveFd=true"]

  predicate Complete(m: Mounted) {
    m.volumeID != "" && m.targetPath != "" && m.cacheDir != "" && m.localSocket != "" && m.mountArgs != []
  }

  ghost predicate InTable(part: seq<Mounted>, v: string) {
    exists i :: 0 <= i < |part| && part[i].volumeID == v
  }

  ghost predicate Ids(part: seq<Mounted>) {
    forall i, j :: 0 <= i < j < |part| ==> NameLess(part[i].volumeID, part[j].volumeID)
  }

  /** `table` holds exactly `base` and `part`, less the volumes in `gone`. */
  ghost predicate Holds(table: map<string, Entry>, base: map<string, Entry>, part: seq<Mounted>, gone: set<string>) {
    && (forall v :: v in table <==> v !in gone && (v in base || InTable(part, v)))
    && (forall i :: 0 <= i < |part| && part[i].volumeID in table ==> table[part[i].volumeID].mount == part[i])
    && (forall v :: v in table && !InTable(part, v) ==> table[v] == base[v])
  }

  // ------------------------------------------------------------------ two managers at once

  /** The new manager's table, the old manager's, and whether the old one is closed to clients. */
  datatype Tables = Tables(here: map<string, Entry>, there: map<string, Entry>, closed: bool)

  /** What can happen between two requests of the new manager: a client asks the old manager to
      mount or unmount, or a worker of either exits. */
  datatype Event =
    | ClientMounts(mount: Mounted, alive: bool, launch: Launch)
    | ClientUnmounts(volume: string, stopped: bool)
    | OldExits(volume: string)
    | NewExits(volume: string)

  function Happen(t: Tables, e: Event): Tables {
    match e
    case ClientMounts(m, alive, launch) =>
      if t.closed || !Complete(m) || (m.volumeID in t.there && (t.there[m.volumeID].mount.targetPath != m.targetPath || alive)) then t
      else if launch == Ready then t.(there := t.there[m.volumeID := Entry(m, Worker(m.mountArgs, false, false))])
      else t.(there := t.there - {m.volumeID})
    case ClientUnmounts(v, stopped) => if t.closed || v == "" || !stopped then t else t.(there := t.there - {v})
    case OldExits(v) => t.(there := t.there - {v})
    case NewExits(v) => t.(here := t.here - {v})
  }

  function Play(t: Tables, es: seq<Event>): Tables {
    if es == [] then t else Happen(Play(t, es[..|es| - 1]), es[|es| - 1])
  }

  function OldLost(es: seq<Event>): set<string> {
    set e | e in es && e.OldExits? :: e.volume
  }

  function NewLost(es: seq<Event>): set<string> {
    set e | e in es && e.NewExits? :: e.volume
  }

  lemma PlaySnoc(t: Tables, es: seq<Event>, i: nat)
    requires i < |es|
    ensures Play(t, es[..i + 1]) == Happen(Play(t, es[..i]), es[i])
    ensures OldLost(es[..i + 1]) == OldLost(es[..i]) + if es[i].OldExits? then {es[i].volume} else {}
    ensures NewLost(es[..i + 1]) == NewLost(es[..i]) + if es[i].NewExits? then {es[i].volume} else {}
  {
    assert es[..i + 1][..i] == es[..i] && es[..i + 1] == es[..i] + [es[i]];
  }

  /** The volumes of two tables whose worker exits. */
  function LostFrom(t: Tables, es: seq<Event>): set<string> {
    (NewLost(es) * t.here.Keys) + (OldLost(es) * t.there.Keys)
  }

  /** One event more: an exit counts if the volume is still there. */
  lemma LostNext(t: Tables, es: seq<Event>, i: nat)
    requires i < |es|
    ensures var s, u, e := LostFrom(t, es[..i]), LostFrom(t, es[..i + 1]), es[i];
            if e.OldExits? && e.volume in t.there - OldLost(es[..i]) then u == s + {e.volume}
            else if e.NewExits? && e.volume in t.here - NewLost(es[..i]) then u == s + {e.volume}
            else u == s
    ensures LostFrom(t, es[..0]) == {}
  {
    PlaySnoc(t, es, i);
  }

  /** While the old manager is closed, only exits count. */
  lemma {:induction false} ClosedPlay(t: Tables, es: seq<Event>)
    requires t.closed
    ensures Play(t, es) == Tables(t.here - NewLost(es), t.there - OldLost(es), true)
  {
    if es != [] {
      var n := |es| - 1;
      ClosedPlay(t, es[..n]);
      PlaySnoc(t, es, n);
      assert es[..n + 1] == es;
    }
  }

  ghost predicate Disjoint(t: Tables) {
    t.here.Keys !! t.there.Keys
  }

  /** A client's mount, complete, is accepted by the old manager, open, for a volume that is in
      the new table, and its worker becomes ready. */
  ghost predicate MountsAgain(t: Tables, e: Event) {
    && e.ClientMounts? && !t.closed && e.launch == Ready && e.mount.volumeID in t.here && e.mount.volumeID !in t.there
    && e.mount.volumeID != "" && e.mount.targetPath != "" && e.mount.cacheDir != "" && e.mount.localSocket != "" && e.mount.mountArgs != []
  }

  lemma DisjointStepIff(t: Tables, e: Event)
    requires Disjoint(t)
    ensures Disjoint(Happen(t, e)) <==> !MountsAgain(t, e)
  {
    if MountsAgain(t, e) { assert e.mount.volumeID in Happen(t, e).there && e.mount.volumeID in Happen(t, e).here; }
  }

  ghost predicate AlwaysDisjoint(t: Tables, es: seq<Event>) {
    forall i :: 0 <= i <= |es| ==> Disjoint(Play(t, es[..i]))
  }

  ghost predicate NeverAgain(t: Tables, es: seq<Event>) {
    forall i :: 0 <= i < |es| ==> !MountsAgain(Play(t, es[..i]), es[i])
  }

  lemma {:induction false} DisjointUntil(t: Tables, es: seq<Event>, i: nat)
    requires Disjoint(t) && NeverAgain(t, es) && i <= |es|
    ensures Disjoint(Play(t, es[..i]))
  {
    hide MountsAgain; hide Disjoint;
    if i == 0 {
      assert es[..0] == [];
    } else {
      DisjointUntil(t, es, i - 1);
      PlaySnoc(t, es, i - 1);
      DisjointStepIff(Play(t, es[..i - 1]), es[i - 1]);
    }
  }

  /** At every moment no volume is in both tables, exactly when no client's mount of a volume in
      the new table is ever accepted by the old manager. */
  lemma DisjointIff(t: Tables, es: seq<Event>)
    requires Disjoint(t)
    ensures AlwaysDisjoint(t, es) <==> NeverAgain(t, es)
  {
    hide MountsAgain; hide Disjoint; hide Play;
    if NeverAgain(t, es) {
      forall i | 0 <= i <= |es| ensures Disjoint(Play(t, es[..i])) { DisjointUntil(t, es, i); }
    }
    if AlwaysDisjoint(t, es) {
      forall i | 0 <= i < |es| ensures !MountsAgain(Play(t, es[..i]), es[i]) {
        assert Disjoint(Play(t, es[..i])) && Disjoint(Play(t, es[..i + 1]));
        PlaySnoc(t, es, i);
        DisjointStepIff(Play(t, es[..i]), es[i]);
      }
    }
  }

  /** In particular as long as the old manager stays closed. */
  lemma ClosedIsDisjoint(t: Tables, es: seq<Event>)
    requires Disjoint(t) && t.closed
    ensures AlwaysDisjoint(t, es)
  {
    forall i | 0 <= i <= |es| ensures Disjoint(Play(t, es[..i])) { ClosedPlay(t, es[..i]); }
  }

  // ------------------------------------------------------------------- a handover under way

  /** The recorded fields of every mount. */
  ghost predicate SameMounts(a: map<string, Entry>, b: map<string, Entry>) {
    a.Keys == b.Keys && forall v :: v in a ==> a[v].mount == b[v].mount
  }

  /** Every worker runs with its recorded arguments and, once, the three flags of an adoption. */
  ghost predicate AllAdopted(table: map<string, Entry>) {
    forall v :: v in table ==>
      table[v].worker == Worker(table[v].mount.mountArgs + ["-dirAutoCreate=true", "-hotRestart.mountFd=3", "-hotRestart.adoptLiveFd=true"], false, false)
  }

  /** A finished handover: everything whose worker lived is in the new table. */
  lemma DoneMeansAll(list: seq<Mounted>, gone: set<string>, was: map<string, Entry>, newTable: map<string, Entry>, oldTable: map<string, Entry>)
    requires Holds(was, map[], list, {}) && Split(map[], list, |list|, false, gone, newTable, oldTable)
    ensures SameMounts(was - gone, newTable) && AllAdopted(newTable) && oldTable == map[]
  {
    assert list[..|list|] == list && list[|list|..] == [];
    forall v | v in newTable ensures v in was && was[v].mount == newTable[v].mount && newTable[v].worker == Worker(newTable[v].mount.mountArgs + ADOPT, false, false) {
      assert InTable(list, v);
      var i :| 0 <= i < |list| && list[i].volumeID == v;
    }
    assert forall v :: v in was ==> InTable(list, v);
    assert forall v :: !InTable([], v);
  }

  lemma SameMountsStart(a: map<string, Entry>)
    ensures SameMounts(a - {}, a)
  {
  }

  lemma SameMountsOn(a: map<string, Entry>, died: set<string>, b: map<string, Entry>, gone: set<string>, c: map<string, Entry>)
    requires SameMounts(a - died, b) && SameMounts(b - gone, c)
    ensures SameMounts(a - (died + gone), c)
  {
    assert (a - (died + gone)).Keys == (a - died).Keys - gone;
  }

  /** The volumes a log has gained. */
  function News(before: seq<string>, after: seq<string>): set<string> {
    if |before| <= |after| then (set v | v in after[|before|..]) else {}
  }

  /** The unmount logs here and there have grown by exactly the volumes in `s`. */
  ghost predicate Gains(here: seq<string>, here2: seq<string>, there: seq<string>, there2: seq<string>, s: set<string>) {
    here <= here2 && there <= there2 && News(here, here2) + News(there, there2) == s
  }

  lemma GainsNone(here: seq<string>, there: seq<string>)
    ensures Gains(here, here, there, there, {})
  {
  }

  lemma NewsTwice(a: seq<string>, b: seq<string>, c: seq<string>)
    requires a <= b <= c
    ensures News(a, c) == News(a, b) + News(b, c)
  {
    assert c[|a|..] == b[|a|..] + c[|b|..];
  }

  lemma GainsTwice(a: seq<string>, b: seq<string>, c: seq<string>, x: seq<string>, y: seq<string>, z: seq<string>, s: set<string>, t: set<string>)
    requires Gains(a, b, x, y, s) && Gains(b, c, y, z, t)
    ensures Gains(a, c, x, z, s + t)
  {
    NewsTwice(a, b, c);
    NewsTwice(x, y, z);
  }

  lemma GainsOne(a: seq<string>, b: seq<string>, x: seq<string>, y: seq<string>, s: set<string>, v: string)
    requires Gains(a, b, x, y, s)
    ensures Gains(a, b + [v], x, y, s + {v}) && Gains(a, b, x, y + [v], s + {v})
  {
    assert (b + [v])[|a|..] == b[|a|..] + [v] && (y + [v])[|x|..] == y[|x|..] + [v];
  }

  lemma Listed(table: map<string, Entry>, ids: seq<string>, list: seq<Mounted>)
    requires forall v :: v in table ==> table[v].mount.volumeID == v
    requires Ascending(ids) && |ids| == |list| && forall v :: v in ids <==> v in table
    requires forall i :: 0 <= i < |ids| ==> ids[i] in table && list[i] == table[ids[i]].mount
    ensures Ids(list) && Holds(table, map[], list, {})
  {
    forall v | v in table ensures InTable(list, v) {
      var i :| 0 <= i < |ids| && ids[i] == v;
      assert list[i].volumeID == v;
    }
  }

  /** The first `k` volumes of `list` are in the new table beside `base`, the later ones in the
      old table, the `k`-th in neither while it is `moving`; volumes in `gone` lost their
      worker. */
  ghost predicate Split(base: map<string, Entry>, list: seq<Mounted>, k: nat, moving: bool, gone: set<string>,
                        newTable: map<string, Entry>, oldTable: map<string, Entry>) {
    && Ids(list) && k <= |list| && (moving ==> k < |list| && list[k].volumeID !in gone)
    && (forall v :: v in base ==> !InTable(list, v))
    && Holds(newTable, base, list[..k], gone)
    && Holds(oldTable, map[], list[if moving then k + 1 else k..], gone)
    && (forall i :: 0 <= i < k && list[i].volumeID in newTable ==>
          newTable[list[i].volumeID].worker == Worker(list[i].mountArgs + ADOPT, false, false))
  }

  lemma IdsDiffer(list: seq<Mounted>, i: nat, j: nat)
    requires Ids(list) && i < |list| && j < |list| && i != j
    ensures list[i].volumeID != list[j].volumeID
  {
    NameIrreflexive(list[i].volumeID);
  }

  /** No volume is in both tables, and one on the move is in neither. */
  lemma SplitApart(base: map<string, Entry>, list: seq<Mounted>, k: nat, moving: bool, gone: set<string>,
                   newTable: map<string, Entry>, oldTable: map<string, Entry>)
    requires Split(base, list, k, moving, gone, newTable, oldTable)
    ensures newTable.Keys !! oldTable.Keys
    ensures moving ==> k < |list| && list[k].volumeID !in newTable && list[k].volumeID !in oldTable
  {
    hide Holds; hide Ids; hide InTable;
    var later := list[if moving then k + 1 else k..];
    forall v | v in oldTable ensures v !in newTable {
      HoldsOnly(oldTable, map[], later, gone, v);
      HoldsOnly(newTable, base, list[..k], gone, v);
      LaterNotBefore(base, list, k, if moving then k + 1 else k, v);
    }
    if moving {
      var v := list[k].volumeID;
      NotBefore(base, list, k, k, v);
      NotAfter(list, k);
      HoldsOnly(oldTable, map[], later, gone, v);
      HoldsOnly(newTable, base, list[..k], gone, v);
    }
  }

  lemma HoldsOnly(table: map<string, Entry>, base: map<string, Entry>, part: seq<Mounted>, gone: set<string>, v: string)
    requires Holds(table, base, part, gone)
    ensures v in table ==> v in base || InTable(part, v)
  {
  }

  lemma LaterNotBefore(base: map<string, Entry>, list: seq<Mounted>, k: nat, n: nat, v: string)
    requires Ids(list) && k <= n <= |list| && InTable(list[n..], v) && forall u :: u in base ==> !InTable(list, u)
    ensures v !in base && !InTable(list[..k], v)
  {
    hide Ids;
    var j :| 0 <= j < |list[n..]| && list[n..][j].volumeID == v;
    NotBefore(base, list, k, n + j, v);
  }

  lemma NotAfter(list: seq<Mounted>, k: nat)
    requires Ids(list) && k < |list|
    ensures !InTable(list[k + 1..], list[k].volumeID)
  {
    hide Ids;
    var later := list[k + 1..];
    forall j | 0 <= j < |later| ensures later[j].volumeID != list[k].volumeID { IdsDiffer(list, k, k + 1 + j); }
  }

  lemma NotBefore(base: map<string, Entry>, list: seq<Mounted>, k: nat, j: nat, v: string)
    requires Ids(list) && k <= j < |list| && list[j].volumeID == v && forall u :: u in base ==> !InTable(list, u)
    ensures v !in base && !InTable(list[..k], v)
  {
    assert InTable(list, v);
    forall i | 0 <= i < k ensures list[..k][i].volumeID != v { IdsDiffer(list, i, j); }
  }

  lemma StillListed(base: map<string, Entry>, list: seq<Mounted>, k: nat, gone: set<string>,
                    newTable: map<string, Entry>, oldTable: map<string, Entry>)
    requires Split(base, list, k, false, gone, newTable, oldTable) && k < |list|
    ensures list[k].volumeID in oldTable <==> list[k].volumeID !in gone
  {
    assert list[k..][0] == list[k];
    assert InTable(list[k..], list[k].volumeID);
  }

  lemma ListedMount(base: map<string, Entry>, list: seq<Mounted>, k: nat, gone: set<string>,
                    newTable: map<string, Entry>, oldTable: map<string, Entry>)
    requires Split(base, list, k, false, gone, newTable, oldTable) && k < |list| && list[k].volumeID in oldTable
    ensures oldTable[list[k].volumeID].mount == list[k]
  {
    assert list[k..][0] == list[k];
  }

  lemma Finalized(base: map<string, Entry>, list: seq<Mounted>, k: nat, gone: set<string>,
                  newTable: map<string, Entry>, oldTable: map<string, Entry>)
    requires Split(base, list, k, false, gone, newTable, oldTable) && k < |list| && list[k].volumeID in oldTable
    ensures Split(base, list, k, true, gone, newTable, oldTable - {list[k].volumeID})
  {
    hide Ids;
    IdsTail(list, k);
    HoldsTail(oldTable, list[k..], gone);
    assert list[k..][1..] == list[k + 1..] && list[k..][0] == list[k];
  }

  lemma IdsTail(list: seq<Mounted>, k: nat)
    requires Ids(list) && k <= |list|
    ensures Ids(list[k..])
  {
  }

  /** Dropping the first listed volume. */
  lemma HoldsTail(table: map<string, Entry>, part: seq<Mounted>, gone: set<string>)
    requires Ids(part) && part != [] && Holds(table, map[], part, gone)
    ensures Holds(table - {part[0].volumeID}, map[], part[1..], gone)
  {
    var rest := part[1..];
    forall v ensures InTable(rest, v) <==> InTable(part, v) && v != part[0].volumeID {
      if InTable(part, v) && v != part[0].volumeID {
        var i :| 0 <= i < |part| && part[i].volumeID == v;
        assert rest[i - 1].volumeID == v;
      }
      if InTable(rest, v) {
        var i :| 0 <= i < |rest| && rest[i].volumeID == v;
        assert part[i + 1].volumeID == v;
        IdsDiffer(part, 0, i + 1);
      }
    }
  }

  lemma Imported(base: map<string, Entry>, list: seq<Mounted>, k: nat, gone: set<string>,
                 newTable: map<string, Entry>, oldTable: map<string, Entry>)
    requires Split(base, list, k, true, gone, newTable, oldTable)
    ensures Split(base, list, k + 1, false, gone,
                  newTable[list[k].volumeID := Entry(list[k], Worker(list[k].mountArgs + ADOPT, false, false))], oldTable)
  {
    hide Ids;
    assert Holds(newTable[list[k].volumeID := Entry(list[k], Worker(list[k].mountArgs + ADOPT, false, false))], base, list[..k + 1], gone) by {
      HoldsSnoc(newTable, base, list, k, gone);
    }
    forall i | 0 <= i < k ensures list[i].volumeID != list[k].volumeID { IdsDiffer(list, i, k); }
  }

  lemma HoldsSnoc(table: map<string, Entry>, base: map<string, Entry>, list: seq<Mounted>, k: nat, gone: set<string>)
    requires Ids(list) && k < |list| && list[k].volumeID !in gone && Holds(table, base, list[..k], gone)
    ensures Holds(table[list[k].volumeID := Entry(list[k], Worker(list[k].mountArgs + ADOPT, false, false))], base, list[..k + 1], gone)
  {
    var m := list[k];
    var after := table[m.volumeID := Entry(m, Worker(m.mountArgs + ADOPT, false, false))];
    InTableSnoc(list, k);
    forall i | 0 <= i < k ensures list[i].volumeID != m.volumeID { IdsDiffer(list, i, k); }
    hide Ids; hide InTable;
    var part := list[..k + 1];
    forall i | 0 <= i < |part| && part[i].volumeID in after ensures after[part[i].volumeID].mount == part[i] {
      if i < k { assert list[..k][i] == list[i]; }
    }
  }

  lemma InTableSnoc(list: seq<Mounted>, k: nat)
    requires k < |list|
    ensures forall v :: InTable(list[..k + 1], v) <==> InTable(list[..k], v) || v == list[k].volumeID
  {
    forall v ensures InTable(list[..k + 1], v) <==> InTable(list[..k], v) || v == list[k].volumeID {
      if InTable(list[..k], v) {
        var i :| 0 <= i < k && list[..k][i].volumeID == v;
        assert list[..k + 1][i].volumeID == v;
      }
      if v == list[k].volumeID { assert list[..k + 1][k].volumeID == v; }
      if InTable(list[..k + 1], v) {
        var i :| 0 <= i < k + 1 && list[..k + 1][i].volumeID == v;
        if i < k { assert list[..k][i].volumeID == v; }
      }
    }
  }

  lemma SplitShrinks(base: map<string, Entry>, list: seq<Mounted>, k: nat, moving: bool, gone: set<string>,
                     newTable: map<string, Entry>, oldTable: map<string, Entry>, out: set<string>)
    requires Split(base, list, k, moving, gone, newTable, oldTable) && out <= newTable.Keys + oldTable.Keys
    ensures Split(base, list, k, moving, gone + out, newTable - out, oldTable - out)
  {
    SplitApart(base, list, k, moving, gone, newTable, oldTable);
    hide Ids;
    HoldsShrinks(newTable, base, list[..k], gone, out);
    HoldsShrinks(oldTable, map[], list[if moving then k + 1 else k..], gone, out);
  }

  lemma HoldsShrinks(table: map<string, Entry>, base: map<string, Entry>, part: seq<Mounted>, gone: set<string>, out: set<string>)
    requires Holds(table, base, part, gone)
    ensures Holds(table - out, base, part, gone + out)
  {
    hide InTable;
  }

  lemma SplitStarts(base: map<string, Entry>, list: seq<Mounted>, oldTable: map<string, Entry>)
    requires Ids(list) && Holds(oldTable, map[], list, {}) && base.Keys !! oldTable.Keys
    ensures Split(base, list, 0, false, {}, base, oldTable)
  {
    assert list[0..] == list;
    assert forall v :: !InTable(list[..0], v);
  }

  /** A volume that lost its worker is in no table. */
  lemma NoneGone(base: map<string, Entry>, list: seq<Mounted>, k: nat, moving: bool, gone: set<string>,
                 newTable: map<string, Entry>, oldTable: map<string, Entry>)
    requires Split(base, list, k, moving, gone, newTable, oldTable)
    ensures newTable.Keys !! gone && oldTable.Keys !! gone
  {
    hide Ids; hide InTable;
  }

  /** Marks on the old workers do not disturb the handover. */
  lemma SplitMarked(base: map<string, Entry>, list: seq<Mounted>, k: nat, moving: bool, gone: set<string>,
                    newTable: map<string, Entry>, oldTable: map<string, Entry>, marked: map<string, Entry>)
    requires Split(base, list, k, moving, gone, newTable, oldTable)
    requires marked.Keys == oldTable.Keys && forall v :: v in marked ==> marked[v].mount == oldTable[v].mount
    ensures Split(base, list, k, moving, gone, newTable, marked)
  {
    HoldsMarked(oldTable, marked, list[if moving then k + 1 else k..], gone);
    hide Holds; hide Ids;
  }

  lemma HoldsMarked(table: map<string, Entry>, marked: map<string, Entry>, part: seq<Mounted>, gone: set<string>)
    requires Holds(table, map[], part, gone)
    requires marked.Keys == table.Keys && forall v :: v in marked ==> marked[v].mount == table[v].mount
    ensures Holds(marked, map[], part, gone)
  {
    hide InTable;
    forall v | v in marked ensures InTable(part, v) { assert v in table; }
  }
}
