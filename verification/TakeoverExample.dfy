/** Two concrete takeovers that end badly: a volume in neither table, and a volume in both. */
module TakeoverExample {
  import opened Pods
  import opened Environment
  import opened MountTable
  import opened Takeover

  function Volume(v: string): Mounted {
    Mounted(v, "/target/" + v, "/cache/" + v, ["-mount"], "/socket/" + v)
  }

  /** Everything goes well; the worker is busy; the answer to the finalize request is lost. */
  const GOOD := Handoff([], Answered, true, true, true, [], Answered, true, true, Unsent, false, [], Ready)
  const BUSY := GOOD.(quiescent := false)
  const CUT_OFF := GOOD.(finalize := Unanswered)

  const UNREADY := GOOD.(launch := Unready)

  const SPOILING := Course(true, Answered, true, _ => UNREADY, Answered, [])

  const LOSING := Course(true, Answered, true, _ => CUT_OFF, Answered, [])

  /** The first volume moves, the second is busy, so the old manager is released; both volumes
      are then asked for again. */
  const REOPENING := Course(true, Answered, true, i => if i == 0 then GOOD else BUSY, Answered,
                            [ClientMounts(Volume("a"), true, Ready), ClientMounts(Volume("b"), true, Ready)])

  lemma NothingLost(c: Course, n: nat, gone: set<string>)
    requires LostBy(c, n, gone) && (c == LOSING || c == SPOILING || c == REOPENING)
    ensures gone == {}
  {
    assert forall j: nat :: Lost(c.handoffs(j)) == {};
  }

  lemma OnlyVolume(table: map<string, Entry>, list: seq<Mounted>)
    requires Holds(table, map[], list, {}) && table.Keys == {"a"}
    ensures |list| > 0 && list[0].volumeID == "a"
  {
    assert InTable(list, "a");
    assert InTable(list, list[0].volumeID);
  }

  /** A takeover after which the volume is in neither table. */
  method VolumeLost() returns (prior: Manager, next: Manager)
    ensures fresh(prior) && fresh(next) && prior != next
    ensures "a" !in prior.mounts && "a" !in next.mounts
  {
    hide Split; hide Holds; hide Ids; hide LostBy; hide Lost; hide Gains;
    prior := new Manager();
    next := new Manager();
    var reply := prior.Mount(Volume("a"), false, Ready);
    ghost var was := prior.mounts;
    var r, list, k, moving, before, gone, handed, log, priorLog := next.TakeoverFrom(prior, LOSING);
    NothingLost(LOSING, k + 1, gone);
    OnlyVolume(was, list);
    assert k == 0 && moving && r == Failed;
    SplitApart(map[], list, k, moving, gone, handed.here, handed.there);
  }

  /** A takeover that itself stops a worker and with it unmounts the volume's target. */
  method TargetLost() returns (prior: Manager, next: Manager)
    ensures fresh(prior) && fresh(next) && prior != next
    ensures "a" !in prior.mounts && "a" !in next.mounts && ("a" in next.unmounted || "a" in prior.unmounted)
  {
    hide Split; hide Holds; hide Ids; hide LostBy; hide Lost; hide Gains;
    prior := new Manager();
    next := new Manager();
    var reply := prior.Mount(Volume("a"), false, Ready);
    ghost var was := prior.mounts;
    var r, list, k, moving, before, gone, handed, log, priorLog := next.TakeoverFrom(prior, SPOILING);
    NothingLost(SPOILING, k + 1, gone);
    OnlyVolume(was, list);
    assert k == 0 && moving && r == Failed;
    SplitApart(map[], list, k, moving, gone, handed.here, handed.there);
    assert "a" in gone + Spoiled(SPOILING, list, k, before);
    Gained([], log, [], priorLog, gone + Spoiled(SPOILING, list, k, before), "a");
  }

  lemma Gained(here: seq<string>, here2: seq<string>, there: seq<string>, there2: seq<string>, s: set<string>, v: string)
    requires Gains(here, here2, there, there2, s) && v in s
    ensures v in here2 || v in there2
  {
  }

  predicate BothOf(m: Mounted, n: Mounted) {
    (m == Volume("a") && n == Volume("b")) || (m == Volume("b") && n == Volume("a"))
  }

  lemma TwoVolumes(table: map<string, Entry>, list: seq<Mounted>)
    requires Holds(table, map[], list, {}) && Ids(list) && table.Keys == {"a", "b"}
    requires table["a"].mount == Volume("a") && table["b"].mount == Volume("b")
    ensures |list| >= 2 && BothOf(list[0], list[1])
  {
    assert InTable(list, "a") && InTable(list, "b");
    forall i | 0 <= i < |list| ensures list[i] == Volume("a") || list[i] == Volume("b") { assert InTable(list, list[i].volumeID); }
    forall i, j | 0 <= i < j < |list| ensures list[i] != list[j] { IdsDiffer(list, i, j); }
    var i :| 0 <= i < |list| && list[i].volumeID == "a";
    var j :| 0 <= j < |list| && list[j].volumeID == "b";
  }

  lemma GoodAndBusy(v: string)
    ensures Imports(GOOD, v) && !Imports(BUSY, v) && !Finalizes(BUSY, v)
  {
  }

  lemma StopsBetween(list: seq<Mounted>, k: nat, moving: bool, before: set<string>)
    requires HandedOver(REOPENING, list, k, moving, before) && |list| >= 2 && before == {}
    ensures k == 1 && !moving
  {
    assert REOPENING.handoffs(0) == GOOD && REOPENING.handoffs(1) == BUSY;
    hide Finalizes; hide Imports;
    GoodAndBusy(list[0].volumeID);
    GoodAndBusy(list[1].volumeID);
  }

  /** The first volume moved, the second stayed: asking for both mounts the first again. */
  lemma BothAsked(t: Tables, m: Mounted, n: Mounted)
    requires BothOf(m, n) && !t.closed && m.volumeID in t.here && m.volumeID !in t.there
    requires n.volumeID in t.there && t.there[n.volumeID].mount == n
    ensures var u := Happen(Happen(t, REOPENING.after[0]), REOPENING.after[1]); m.volumeID in u.here && m.volumeID in u.there
  {
  }

  /** The handover stopped between the two volumes; then both are asked for. */
  lemma AskedAgain(list: seq<Mounted>, t: Tables)
    requires |list| >= 2 && BothOf(list[0], list[1])
    requires Split(map[], list, 1, false, {}, t.here, t.there) && !t.closed
    ensures var u := Play(t, REOPENING.after); list[0].volumeID in u.here && list[0].volumeID in u.there
  {
    assert list[..1][0] == list[0] && list[1..][0] == list[1];
    assert InTable(list[..1], list[0].volumeID) && InTable(list[1..], list[1].volumeID);
    assert list[0].volumeID in t.here && list[1].volumeID in t.there && t.there[list[1].volumeID].mount == list[1];
    SplitApart(map[], list, 1, false, {}, t.here, t.there);
    hide Split; hide Holds; hide InTable; hide Ids; hide Play; hide Happen;
    BothAsked(t, list[0], list[1]);
    var es := REOPENING.after;
    PlayNone(t, es);
    PlaySnoc(t, es, 0);
    PlaySnoc(t, es, 1);
    assert es[..2] == es;
  }

  /** A takeover that fails and releases the old manager, which then mounts a moved volume while
      the new process has not ended. */
  method VolumeTwice() returns (prior: Manager, next: Manager, ghost v: string)
    ensures fresh(prior) && fresh(next) && prior != next
    ensures v in prior.mounts && v in next.mounts
  {
    hide Split; hide Holds; hide Ids; hide LostBy; hide Lost; hide Gains; hide Play; hide AlwaysDisjoint; hide NeverAgain; hide HandedOver; hide Imports; hide Finalizes;
    prior := new Manager();
    next := new Manager();
    var reply := prior.Mount(Volume("a"), false, Ready);
    reply := prior.Mount(Volume("b"), false, Ready);
    ghost var was := prior.mounts;
    var r, list, k, moving, before, gone, handed, log, priorLog := next.TakeoverFrom(prior, REOPENING);
    NothingLost(REOPENING, k + 1, gone);
    TwoVolumes(was, list);
    StopsBetween(list, k, moving, before);
    assert r == Failed;
    AskedAgain(list, handed);
    v := list[0].volumeID;
  }
}
