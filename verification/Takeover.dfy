/** The mount service's manager, and the handover of its mounts to a new manager. Each request to
    the old manager is one atomic step that may be lost on the way or have its answer lost;
    workers may exit and clients may call the old manager between any two of them, and the new
    manager may stop. */
module Takeover {
  import opened PathOrder
  import opened Pods
  import opened Environment
  import opened MountTable

  datatype ExportReply = NoReply | NotQuiescent | Exported(mount: Mounted)

  datatype Move = Moved | Stays | InNeither | Stopped

  datatype Outcome = Done | Failed | Unsupported | Crashed

  /** Everything outside that decides the handover of one volume, in the order it matters: events
      before the export request, its delivery and the worker's answer, whether the new process
      goes on; events before the finalize request, its delivery, whether the old worker stops,
      whether the new process goes on; the cancel request; events before the import, and how
      the start of the adopting worker goes. */
  datatype Handoff = Handoff(
    first: seq<Event>, ask: Delivery, prepared: bool, quiescent: bool, goesOn: bool,
    before: seq<Event>, finalize: Delivery, stopped: bool, goesOnAfter: bool,
    cancel: Delivery, canceled: bool,
    between: seq<Event>, launch: Launch)

  /** Everything outside that decides one takeover. */
  datatype Course = Course(
    supported: bool, inventory: Delivery, goesOn: bool, handoffs: nat -> Handoff, release: Delivery, after: seq<Event>)

  /** The inventory is here and the handover of volumes begins. */
  predicate Began(c: Course) {
    c.supported && c.inventory == Answered && c.goesOn
  }

  /** The finalize request takes effect on `v`, which the old manager has at first. */
  predicate Finalizes(h: Handoff, v: string) {
    && v !in OldLost(h.first) && h.ask == Answered && h.prepared && h.quiescent && h.goesOn
    && v !in OldLost(h.before) && h.finalize != Unsent && h.stopped
  }

  /** And the import takes effect as well. */
  predicate Imports(h: Handoff, v: string) {
    Finalizes(h, v) && h.finalize == Answered && h.goesOnAfter && h.launch == Ready
  }

  /** The adopting worker is started, does not become ready, and takes the mount with it. */
  predicate Spoils(h: Handoff, v: string) {
    Finalizes(h, v) && h.finalize == Answered && h.goesOnAfter && h.launch == Unready
  }

  /** The worker is asked to prepare and does. */
  predicate Prepares(h: Handoff) {
    h.ask != Unsent && h.prepared && h.quiescent
  }

  /** The new manager knows of it, fails to finalize, and its cancel request takes effect. */
  predicate Cancels(h: Handoff) {
    h.ask == Answered && h.goesOn && h.goesOnAfter && h.cancel != Unsent && h.canceled
  }

  lemma MarkTwice()
    ensures forall e, p, q :: Marked(Marked(e, p), q) == Marked(e, q)
  {
  }

  function Marked(e: Entry, prepared: bool): Entry {
    e.(worker := e.worker.(prepared := prepared))
  }

  /** What is left of an entry that stays in the old table. */
  function Kept(e: Entry, h: Handoff): Entry {
    if Prepares(h) then Marked(e, !Cancels(h)) else e
  }

  /** The volumes whose worker exits during the handover of one. */
  function Lost(h: Handoff): set<string> {
    OldLost(h.first + h.before + h.between) + NewLost(h.first + h.before + h.between)
  }

  /** Nothing fails and no worker exits. */
  predicate Smooth(h: Handoff) {
    && h.first == h.before == h.between == [] && h.ask == h.finalize == Answered
    && h.prepared && h.quiescent && h.goesOn && h.stopped && h.goesOnAfter && h.launch == Ready
  }

  class Manager {
    var mounts: map<string, Entry>
    var takeover: bool
    var startup: Startup
    /** The volumes whose target an exiting worker unmounted. */
    var unmounted: seq<string>

    constructor ()
      ensures mounts == map[] && !takeover && startup == FreshStart && unmounted == []
    {
      mounts, takeover, startup, unmounted := map[], false, FreshStart, [];
    }

    ghost predicate Keyed()
      reads this
    {
      && "" !in mounts
      && forall v :: v in mounts ==> mounts[v].mount.volumeID == v && !mounts[v].worker.preserve
    }

    /** A worker exits on its own. */
    method Exit(v: string)
      modifies this
      ensures mounts == old(mounts) - {v}
      ensures unmounted == if v in old(mounts) && !old(mounts)[v].worker.preserve then old(unmounted) + [v] else old(unmounted)
      ensures takeover == old(takeover) && startup == old(startup)
    {
      if v in mounts && !mounts[v].worker.preserve { unmounted := unmounted + [v]; }
      mounts := mounts - {v};
    }

    /** `Mount`: nothing changes while a takeover is under way. `alive` is whether the worker
        of an existing entry still runs. A new worker that does not become ready is stopped
        again, and its exit unmounts the target. */
    method Mount(m: Mounted, alive: bool, launch: Launch) returns (r: Result<string>)
      requires Keyed()
      modifies this
      ensures Keyed() && takeover == old(takeover) && startup == old(startup)
      ensures mounts == Happen(Tables(map[], old(mounts), takeover), ClientMounts(m, alive, launch)).there
      ensures takeover || m.volumeID == "" || m.targetPath == "" || m.cacheDir == "" || m.localSocket == "" || m.mountArgs == [] || (m.volumeID in old(mounts) && old(mounts)[m.volumeID].mount.targetPath != m.targetPath) ==>
                r == Refuse && mounts == old(mounts) && unmounted == old(unmounted)
      ensures !takeover && m.volumeID != "" && m.targetPath != "" && m.cacheDir != "" && m.localSocket != "" && m.mountArgs != []
              && (m.volumeID in old(mounts) ==> old(mounts)[m.volumeID].mount.targetPath == m.targetPath) ==>
                if m.volumeID in old(mounts) && alive then r == Ok(old(mounts)[m.volumeID].mount.localSocket) && mounts == old(mounts) && unmounted == old(unmounted)
                else if launch == Ready then r == Ok(m.localSocket) && mounts == old(mounts)[m.volumeID := Entry(m, Worker(m.mountArgs, false, false))] && unmounted == old(unmounted)
                else r == Refuse && mounts == old(mounts) - {m.volumeID} && unmounted == if launch == Unready then old(unmounted) + [m.volumeID] else old(unmounted)
    {
      if takeover || !Complete(m) { return Refuse; }
      if m.volumeID in mounts {
        if mounts[m.volumeID].mount.targetPath != m.targetPath { return Refuse; }
        if alive { return Ok(mounts[m.volumeID].mount.localSocket); }
        mounts := mounts - {m.volumeID};
      }
      if launch == Unready { unmounted := unmounted + [m.volumeID]; }
      if launch != Ready { return Refuse; }
      mounts := mounts[m.volumeID := Entry(m, Worker(m.mountArgs, false, false))];
      return Ok(m.localSocket);
    }

    /** `Unmount`: stops the worker, whose exit unmounts the target. */
    method Unmount(v: string, stopped: bool) returns (ok: bool)
      requires Keyed()
      modifies this
      ensures Keyed() && takeover == old(takeover) && startup == old(startup)
      ensures ok <==> !takeover && v != "" && (v in old(mounts) ==> stopped)
      ensures mounts == if ok then old(mounts) - {v} else old(mounts)
      ensures mounts == Happen(Tables(map[], old(mounts), takeover), ClientUnmounts(v, stopped)).there
      ensures unmounted == if ok && v in old(mounts) then old(unmounted) + [v] else old(unmounted)
    {
      if takeover || v == "" { return false; }
      if v !in mounts { return true; }
      if !stopped { return false; }
      Exit(v);
      return true;
    }

    /** `TakeoverInventory`: closes the table to other clients and lists it by volume id. */
    method Inventory() returns (list: seq<Mounted>)
      requires Keyed()
      modifies this`takeover
      ensures takeover && Ids(list) && Holds(mounts, map[], list, {})
    {
      takeover := true;
      list := ListMounts();
    }

    method ListMounts() returns (list: seq<Mounted>)
      requires Keyed()
      ensures Ids(list) && Holds(mounts, map[], list, {})
    {
      var ids := ListIds();
      var sorted := Sorted(ids);
      list := [];
      for k := 0 to |sorted|
        invariant |list| == k && forall i :: 0 <= i < k ==> sorted[i] in mounts && list[i] == mounts[sorted[i]].mount
      {
        assert sorted[k] in ids;
        list := list + [mounts[sorted[k]].mount];
      }
      Listed(mounts, sorted, list);
    }

    method ListIds() returns (ids: seq<string>)
      ensures forall v :: v in ids <==> v in mounts
      ensures forall i, j :: 0 <= i < j < |ids| ==> ids[i] != ids[j]
    {
      ids := [];
      var rest := mounts.Keys;
      while rest != {}
        invariant rest <= mounts.Keys && (forall v :: v in ids <==> v in mounts && v !in rest)
        invariant forall i, j :: 0 <= i < j < |ids| ==> ids[i] != ids[j]
        decreases rest
      {
        var v :| v in rest;
        ids, rest := ids + [v], rest - {v};
      }
    }

    /** `ExportTakeover`: the worker is asked to prepare, and if it does its entry is handed out;
        the table keeps it, marked. */
    method Export(v: string, prepared: bool, quiescent: bool) returns (r: ExportReply)
      requires Keyed()
      modifies this`mounts
      ensures Keyed() && mounts.Keys == old(mounts).Keys
      ensures r.Exported? <==> v in old(mounts) && prepared && quiescent
      ensures r.Exported? ==> r.mount == old(mounts)[v].mount
      ensures forall u :: u in mounts ==>
                mounts[u] == if u == v && r.Exported? then old(mounts)[u].(worker := old(mounts)[u].worker.(prepared := true)) else old(mounts)[u]
    {
      if v == "" || v !in mounts { return NoReply; }
      if !prepared { return NoReply; }
      if !quiescent { return NotQuiescent; }
      mounts := mounts[v := mounts[v].(worker := mounts[v].worker.(prepared := true))];
      return Exported(mounts[v].mount);
    }

    /** `FinalizeTakeover`: the old worker leaves without unmounting; if it does not stop, the
        entry stays and a later exit unmounts as usual. */
    method Finalize(v: string, stopped: bool) returns (ok: bool)
      requires Keyed()
      modifies this
      ensures Keyed() && takeover == old(takeover) && startup == old(startup) && unmounted == old(unmounted)
      ensures mounts == if ok then old(mounts) - {v} else old(mounts)
      ensures ok <==> v in old(mounts) && stopped
    {
      if v == "" || v !in mounts { return false; }
      var entry := mounts[v];
      mounts := mounts[v := entry.(worker := entry.worker.(preserve := true))];
      if !stopped {
        mounts := mounts[v := entry.(worker := entry.worker.(preserve := false))];
        return false;
      }
      Exit(v);
      return true;
    }

    /** `CancelTakeover`: the worker resumes, and a later exit of it unmounts as usual. */
    method Cancel(v: string, canceled: bool) returns (ok: bool)
      requires Keyed()
      modifies this
      ensures Keyed() && takeover == old(takeover) && startup == old(startup) && unmounted == old(unmounted)
      ensures (ok <==> v in old(mounts) && canceled) && mounts.Keys == old(mounts).Keys
      ensures forall u :: u in mounts ==>
                mounts[u] == if u == v && ok then old(mounts)[u].(worker := old(mounts)[u].worker.(prepared := false)) else old(mounts)[u]
    {
      if v == "" || v !in mounts { return false; }
      if !canceled { return false; }
      mounts := mounts[v := mounts[v].(worker := mounts[v].worker.(preserve := false, prepared := false))];
      return true;
    }

    /** `importTakeoverMount`: a worker adopts the live descriptor; the recorded arguments are
        those handed over, without the adoption flags. A worker that does not become ready is
        stopped again, and its exit unmounts the target. */
    method Import(m: Mounted, launch: Launch) returns (ok: bool)
      modifies this
      ensures takeover == old(takeover) && startup == old(startup) && (ok <==> launch == Ready)
      ensures unmounted == if launch == Unready then old(unmounted) + [m.volumeID] else old(unmounted)
      ensures mounts == if ok then old(mounts)[m.volumeID := Entry(m, Worker(m.mountArgs + ADOPT, false, false))] else old(mounts)
      ensures ok ==> mounts[m.volumeID].worker.args == m.mountArgs + ["-dirAutoCreate=true", "-hotRestart.mountFd=3", "-hotRestart.adoptLiveFd=true"]
    {
      if launch == Unready { unmounted := unmounted + [m.volumeID]; }
      if launch != Ready { return false; }
      mounts := mounts[m.volumeID := Entry(m, Worker(m.mountArgs + ADOPT, false, false))];
      return true;
    }

    // ------------------------------------------------------------ taking over from another

    ghost function Now(prior: Manager): Tables
      reads this, prior
    {
      Tables(mounts, prior.mounts, prior.takeover)
    }

    /** What happens between two requests. */
    method Meanwhile(prior: Manager, es: seq<Event>)
      requires prior != this && Keyed() && prior.Keyed()
      modifies this, prior
      ensures Keyed() && prior.Keyed() && Now(prior) == Play(old(Now(prior)), es)
      ensures prior.takeover == old(prior.takeover) && takeover == old(takeover) && startup == old(startup)
      ensures old(unmounted) <= unmounted && old(prior.unmounted) <= prior.unmounted
      ensures old(prior.takeover) ==>
                Gains(old(unmounted), unmounted, old(prior.unmounted), prior.unmounted, LostFrom(old(Now(prior)), es))
    {
      hide Play; hide Gains; hide LostFrom; hide OldLost; hide NewLost;
      ghost var was := Now(prior);
      assert Play(was, es[..0]) == was by { PlayNone(was, es); }
      GainsNone(unmounted, prior.unmounted);
      NothingLostYet(was, es);
      for i := 0 to |es|
        invariant Keyed() && prior.Keyed() && Now(prior) == Play(was, es[..i])
        invariant old(unmounted) <= unmounted && old(prior.unmounted) <= prior.unmounted
        invariant prior.takeover == old(prior.takeover) && takeover == old(takeover) && startup == old(startup)
        invariant prior.takeover ==> mounts == was.here - NewLost(es[..i]) && prior.mounts == was.there - OldLost(es[..i])
        invariant prior.takeover ==>
                    Gains(old(unmounted), unmounted, old(prior.unmounted), prior.unmounted, LostFrom(was, es[..i]))
      {
        PlaySnoc(was, es, i);
        Occurs(prior, es, i, was, old(unmounted), old(prior.unmounted));
      }
      assert es[..|es|] == es;
    }

    /** One event. */
    method Occurs(prior: Manager, es: seq<Event>, i: nat, ghost was: Tables, ghost log: seq<string>, ghost priorLog: seq<string>)
      requires prior != this && Keyed() && prior.Keyed() && i < |es|
      requires prior.takeover ==> mounts == was.here - NewLost(es[..i]) && prior.mounts == was.there - OldLost(es[..i])
      requires prior.takeover ==>
                 Gains(log, unmounted, priorLog, prior.unmounted, LostFrom(was, es[..i]))
      modifies this, prior
      ensures Keyed() && prior.Keyed() && Now(prior) == Happen(old(Now(prior)), es[i])
      ensures old(unmounted) <= unmounted && old(prior.unmounted) <= prior.unmounted
      ensures prior.takeover == old(prior.takeover) && takeover == old(takeover) && startup == old(startup)
      ensures prior.takeover ==> mounts == was.here - NewLost(es[..i + 1]) && prior.mounts == was.there - OldLost(es[..i + 1])
      ensures prior.takeover ==>
                Gains(log, unmounted, priorLog, prior.unmounted, LostFrom(was, es[..i + 1]))
    {
      hide Gains; hide OldLost; hide NewLost; hide LostFrom; hide Complete;
      PlaySnoc(was, es, i);
      LostNext(was, es, i);
      var e := es[i];
      match e {
        case ClientMounts(m, alive, launch) => var reply := prior.Mount(m, alive, launch);
        case ClientUnmounts(v, stopped) => var reply := prior.Unmount(v, stopped);
        case OldExits(v) =>
          if prior.takeover { GainsOne(log, unmounted, priorLog, prior.unmounted, LostFrom(was, es[..i]), v); }
          prior.Exit(v);
        case NewExits(v) =>
          if prior.takeover { GainsOne(log, unmounted, priorLog, prior.unmounted, LostFrom(was, es[..i]), v); }
          Exit(v);
      }
    }

    /** The handover between `this` and `prior` stands as described. */
    ghost predicate Handing(prior: Manager, base: map<string, Entry>, list: seq<Mounted>, k: nat, moving: bool, gone: set<string>)
      reads this, prior
    {
      && Keyed() && prior.Keyed() && prior.takeover
      && Split(base, list, k, moving, gone, mounts, prior.mounts)
    }

    /** Other events between two steps of the handover; a volume being moved is out of reach. */
    method Between(prior: Manager, es: seq<Event>, ghost base: map<string, Entry>, ghost list: seq<Mounted>, ghost k: nat, ghost moving: bool, ghost gone0: set<string>)
      returns (ghost gone: set<string>)
      requires prior != this && Handing(prior, base, list, k, moving, gone0)
      modifies this, prior
      ensures gone0 <= gone <= gone0 + OldLost(es) + NewLost(es) && takeover == old(takeover) && startup == old(startup)
      ensures Handing(prior, base, list, k, moving, gone)
      ensures mounts == old(mounts) - NewLost(es) && prior.mounts == old(prior.mounts) - OldLost(es)
      ensures Gains(old(unmounted), unmounted, old(prior.unmounted), prior.unmounted, gone - gone0)
    {
      hide Split; hide Gains; hide Play; hide Happen;
      SplitApart(base, list, k, moving, gone0, mounts, prior.mounts);
      Meanwhile(prior, es);
      ClosedPlay(old(Now(prior)), es);
      ghost var out := LostFrom(old(Now(prior)), es);
      gone := gone0 + out;
      NoneGone(base, list, k, moving, gone0, old(mounts), old(prior.mounts));
      assert gone - gone0 == out;
      assert old(mounts) - NewLost(es) == old(mounts) - out && old(prior.mounts) - OldLost(es) == old(prior.mounts) - out;
      SplitShrinks(base, list, k, moving, gone0, old(mounts), old(prior.mounts), out);
    }

    /** The finalize request for a volume still in the old table. */
    method HandOver(prior: Manager, h: Handoff, ghost base: map<string, Entry>, ghost list: seq<Mounted>, ghost k: nat, m: Mounted, ghost gone: set<string>)
      returns (finalized: bool)
      requires prior != this && k < |list| && m == list[k] && Handing(prior, base, list, k, false, gone)
      modifies prior
      ensures prior.unmounted == old(prior.unmounted) && Handing(prior, base, list, k, finalized, gone)
      ensures prior.mounts == if finalized then old(prior.mounts) - {m.volumeID} else old(prior.mounts)
      ensures finalized <==> m.volumeID in old(prior.mounts) && h.finalize != Unsent && h.stopped
    {
      hide Split;
      finalized := false;
      if h.finalize != Unsent { finalized := prior.Finalize(m.volumeID, h.stopped); }
      if finalized { Finalized(base, list, k, gone, mounts, old(prior.mounts)); }
    }

    /** The export request; an answer that is lost is none. */
    method Ask(prior: Manager, h: Handoff, ghost base: map<string, Entry>, ghost list: seq<Mounted>, ghost k: nat, v: string, ghost gone: set<string>)
      returns (reply: ExportReply)
      requires prior != this && Handing(prior, base, list, k, false, gone)
      modifies prior
      ensures Handing(prior, base, list, k, false, gone) && prior.unmounted == old(prior.unmounted) && prior.mounts.Keys == old(prior.mounts).Keys
      ensures forall u :: u in prior.mounts ==> prior.mounts[u] == if u == v && Prepares(h) then Marked(old(prior.mounts)[u], true) else old(prior.mounts)[u]
      ensures reply.Exported? <==> v in prior.mounts && h.ask == Answered && h.prepared && h.quiescent
      ensures reply.Exported? ==> reply.mount == prior.mounts[v].mount
    {
      hide Split;
      reply := NoReply;
      if h.ask != Unsent { reply := prior.Export(v, h.prepared, h.quiescent); }
      if h.ask != Answered { reply := NoReply; }
      SplitMarked(base, list, k, false, gone, mounts, old(prior.mounts), prior.mounts);
    }

    /** The cancel request after a failed finalize. */
    method GiveUp(prior: Manager, h: Handoff, ghost base: map<string, Entry>, ghost list: seq<Mounted>, ghost k: nat, ghost moving: bool, v: string, ghost gone: set<string>)
      requires prior != this && Handing(prior, base, list, k, moving, gone)
      modifies prior
      ensures Handing(prior, base, list, k, moving, gone) && prior.unmounted == old(prior.unmounted) && prior.mounts.Keys == old(prior.mounts).Keys
      ensures forall u :: u in prior.mounts ==>
                prior.mounts[u] == if u == v && h.cancel != Unsent && h.canceled then Marked(old(prior.mounts)[u], false) else old(prior.mounts)[u]
    {
      hide Split;
      if h.cancel != Unsent { var canceled := prior.Cancel(v, h.canceled); }
      SplitMarked(base, list, k, moving, gone, mounts, old(prior.mounts), prior.mounts);
    }

    /** The import of a volume that has left the old table. */
    method Adopt(prior: Manager, h: Handoff, ghost base: map<string, Entry>, ghost list: seq<Mounted>, ghost k: nat, m: Mounted, ghost gone0: set<string>)
      returns (moved: bool, ghost gone: set<string>)
      requires prior != this && k < |list| && m == list[k] && m.volumeID != "" && Handing(prior, base, list, k, true, gone0)
      modifies this, prior
      ensures gone0 <= gone <= gone0 + OldLost(h.between) + NewLost(h.between) && takeover == old(takeover) && startup == old(startup)
      ensures Gains(old(unmounted), unmounted, old(prior.unmounted), prior.unmounted, (gone - gone0) + if h.launch == Unready then {m.volumeID} else {})
      ensures Handing(prior, base, list, if moved then k + 1 else k, !moved, gone)
      ensures forall u :: u in prior.mounts ==> u in old(prior.mounts) && prior.mounts[u] == old(prior.mounts)[u]
      ensures moved <==> h.launch == Ready
    {
      hide Split; hide Gains;
      gone := Between(prior, h.between, base, list, k, true, gone0);
      ghost var table, log := mounts, unmounted;
      moved := Import(m, h.launch);
      if moved { Imported(base, list, k, gone, table, prior.mounts); }
      GainsOne(old(unmounted), log, old(prior.unmounted), prior.unmounted, gone - gone0, m.volumeID);
      assert (gone - gone0) + {} == gone - gone0;
    }

    /** `takeoverMount` for the `k`-th volume of the inventory. The volume ends here exactly when
        finalize and import take effect, and in neither table exactly when finalize does and the
        import does not. Exactly the volumes whose worker exits lose their target, and the volume
        itself if its adopting worker is started and does not become ready. Of the entries that
        stay, at most its own is marked. */
    method TakeOver(prior: Manager, h: Handoff, ghost base: map<string, Entry>, ghost list: seq<Mounted>, ghost k: nat, m: Mounted, ghost gone0: set<string>)
      returns (r: Move, ghost moving: bool, ghost gone: set<string>)
      requires prior != this && k < |list| && m == list[k] && Handing(prior, base, list, k, false, gone0)
      modifies this, prior
      ensures gone0 <= gone <= gone0 + Lost(h) && takeover == old(takeover) && startup == old(startup)
      ensures Gains(old(unmounted), unmounted, old(prior.unmounted), prior.unmounted,
                    (gone - gone0) + if m.volumeID in old(prior.mounts) && Spoils(h, m.volumeID) then {m.volumeID} else {})
      ensures Handing(prior, base, list, if r == Moved then k + 1 else k, moving, gone)
      ensures r == Moved <==> m.volumeID in old(prior.mounts) && Imports(h, m.volumeID)
      ensures moving <==> m.volumeID in old(prior.mounts) && Finalizes(h, m.volumeID) && !Imports(h, m.volumeID)
      ensures (r == Stays ==> !moving) && (r == InNeither ==> moving) && (r == Stopped ==> !h.goesOn || !h.goesOnAfter)
      ensures forall u :: u in prior.mounts ==>
                u in old(prior.mounts) && prior.mounts[u] == if u == m.volumeID then Kept(old(prior.mounts)[u], h) else old(prior.mounts)[u]
    {
      hide Split; hide Gains; hide OldLost; hide NewLost; hide Lost; hide Marked;
      LostParts(h);
      MarkTwice();
      var reply;
      reply, gone := Approach(prior, h, base, list, k, m, gone0);
      assert (gone - gone0) + {} == gone - gone0;
      if !h.goesOn { return Stopped, false, gone; }
      if !reply.Exported? { return Stays, false, gone; }
      ghost var log, priorLog, since := unmounted, prior.unmounted, gone;
      var finalized;
      finalized, gone := Retire(prior, h, base, list, k, m, gone);
      GainsTwice(old(unmounted), log, unmounted, old(prior.unmounted), priorLog, prior.unmounted, since - gone0, gone - since);
      assert (since - gone0) + (gone - since) == gone - gone0 && (gone - gone0) + {} == gone - gone0;
      log, priorLog, since := unmounted, prior.unmounted, gone;
      r, moving, gone := Settle(prior, h, base, list, k, reply.mount, finalized, gone);
      ghost var spoiled := if finalized && h.finalize == Answered && h.goesOnAfter && h.launch == Unready then {m.volumeID} else {};
      GainsTwice(old(unmounted), log, unmounted, old(prior.unmounted), priorLog, prior.unmounted, since - gone0, (gone - since) + spoiled);
      assert (since - gone0) + ((gone - since) + spoiled) == (gone - gone0) + spoiled;
    }

    /** Events, and then the export request. */
    method Approach(prior: Manager, h: Handoff, ghost base: map<string, Entry>, ghost list: seq<Mounted>, ghost k: nat, m: Mounted, ghost gone0: set<string>)
      returns (reply: ExportReply, ghost gone: set<string>)
      requires prior != this && k < |list| && m == list[k] && Handing(prior, base, list, k, false, gone0)
      modifies this, prior
      ensures gone0 <= gone <= gone0 + OldLost(h.first) + NewLost(h.first) && takeover == old(takeover) && startup == old(startup)
      ensures Gains(old(unmounted), unmounted, old(prior.unmounted), prior.unmounted, gone - gone0)
      ensures Handing(prior, base, list, k, false, gone)
      ensures prior.mounts.Keys == old(prior.mounts).Keys - OldLost(h.first)
      ensures reply.Exported? <==> m.volumeID in prior.mounts && h.ask == Answered && h.prepared && h.quiescent
      ensures reply.Exported? ==> reply.mount == m && m.volumeID != ""
      ensures forall u :: u in prior.mounts ==> prior.mounts[u] == if u == m.volumeID && Prepares(h) then Marked(old(prior.mounts)[u], true) else old(prior.mounts)[u]
    {
      hide Split; hide Gains; hide OldLost; hide NewLost; hide Marked;
      gone := Between(prior, h.first, base, list, k, false, gone0);
      reply := Ask(prior, h, base, list, k, m.volumeID, gone);
      if reply.Exported? { ListedMount(base, list, k, gone, mounts, prior.mounts); }
    }

    /** What follows the finalize request: the import, or the cancel request. */
    method Settle(prior: Manager, h: Handoff, ghost base: map<string, Entry>, ghost list: seq<Mounted>, ghost k: nat, m: Mounted, finalized: bool, ghost gone0: set<string>)
      returns (r: Move, ghost moving: bool, ghost gone: set<string>)
      requires prior != this && k < |list| && m == list[k] && m.volumeID != "" && Handing(prior, base, list, k, finalized, gone0)
      modifies this, prior
      ensures gone0 <= gone <= gone0 + OldLost(h.between) + NewLost(h.between) && takeover == old(takeover) && startup == old(startup)
      ensures Gains(old(unmounted), unmounted, old(prior.unmounted), prior.unmounted,
                    (gone - gone0) + if finalized && h.finalize == Answered && h.goesOnAfter && h.launch == Unready then {m.volumeID} else {})
      ensures Handing(prior, base, list, if r == Moved then k + 1 else k, moving, gone)
      ensures r == Moved <==> finalized && h.finalize == Answered && h.goesOnAfter && h.launch == Ready
      ensures moving <==> finalized && r != Moved
      ensures (r == Stays ==> !moving) && (r == InNeither ==> moving) && (r == Stopped ==> !h.goesOnAfter)
      ensures forall u :: u in prior.mounts ==> u in old(prior.mounts)
      ensures forall u :: u in prior.mounts && (u != m.volumeID || !finalized) ==>
                prior.mounts[u] == if u == m.volumeID && h.goesOnAfter && h.cancel != Unsent && h.canceled then Marked(old(prior.mounts)[u], false) else old(prior.mounts)[u]
      ensures finalized ==> m.volumeID !in prior.mounts
    {
      hide Split; hide Gains; hide OldLost; hide NewLost;
      SplitApart(base, list, k, finalized, gone0, mounts, prior.mounts);
      gone := gone0;
      GainsNone(unmounted, prior.unmounted);
      assert (gone - gone0) + {} == {};
      if !h.goesOnAfter { return Stopped, finalized, gone; }
      if h.finalize != Answered || !finalized {
        GiveUp(prior, h, base, list, k, finalized, m.volumeID, gone);
        return if finalized then InNeither else Stays, finalized, gone;
      }
      var moved;
      moved, gone := Adopt(prior, h, base, list, k, m, gone);
      return if moved then Moved else InNeither, !moved, gone;
    }

    /** Events, and then the finalize request. */
    method Retire(prior: Manager, h: Handoff, ghost base: map<string, Entry>, ghost list: seq<Mounted>, ghost k: nat, m: Mounted, ghost gone0: set<string>)
      returns (finalized: bool, ghost gone: set<string>)
      requires prior != this && k < |list| && m == list[k] && Handing(prior, base, list, k, false, gone0)
      modifies this, prior
      ensures gone0 <= gone <= gone0 + OldLost(h.before) + NewLost(h.before) && takeover == old(takeover) && startup == old(startup)
      ensures Gains(old(unmounted), unmounted, old(prior.unmounted), prior.unmounted, gone - gone0)
      ensures Handing(prior, base, list, k, finalized, gone)
      ensures finalized <==> m.volumeID in old(prior.mounts) && m.volumeID !in OldLost(h.before) && h.finalize != Unsent && h.stopped
      ensures m.volumeID in prior.mounts ==> !finalized
      ensures forall u :: u in prior.mounts ==> u in old(prior.mounts) && prior.mounts[u] == old(prior.mounts)[u]
    {
      hide Split; hide Gains; hide OldLost; hide NewLost;
      gone := Between(prior, h.before, base, list, k, false, gone0);
      finalized := HandOver(prior, h, base, list, k, m, gone);
    }

    /** The first `k` volumes are handed over and nothing else has happened but exits. */
    ghost predicate Advanced(prior: Manager, c: Course, base: map<string, Entry>, list: seq<Mounted>, k: nat, gone: set<string>,
                             log: seq<string>, priorLog: seq<string>, was: map<string, Entry>)
      reads this, prior
    {
      && Handing(prior, base, list, k, false, gone) && LostBy(c, k, gone)
      && (forall j :: 0 <= j < k ==> Imports(c.handoffs(j), list[j].volumeID))
      && Gains(log, unmounted, priorLog, prior.unmounted, gone)
      && (forall u :: u in prior.mounts ==> u in was && prior.mounts[u] == was[u])
    }

    /** The loop's body: the volume is moved, or the handover ends with it. */
    method HandNext(prior: Manager, c: Course, ghost base: map<string, Entry>, ghost list: seq<Mounted>, k: nat, m: Mounted, ghost gone0: set<string>,
                    ghost log: seq<string>, ghost priorLog: seq<string>, ghost was: map<string, Entry>)
      returns (r: Move, ghost moving: bool, ghost gone: set<string>)
      requires prior != this && Began(c) && k < |list| && m == list[k] && Advanced(prior, c, base, list, k, gone0, log, priorLog, was)
      modifies this, prior
      ensures gone0 <= gone && takeover == old(takeover) && startup == old(startup) && (r == Moved ==> !moving)
      ensures Handing(prior, base, list, if r == Moved then k + 1 else k, moving, gone)
      ensures r == Moved ==> Advanced(prior, c, base, list, k + 1, gone, log, priorLog, was)
      ensures Disjoint(Now(prior))
      ensures r != Moved ==>
                && HandedOver(c, list, k, moving, gone0) && LostBy(c, k, gone0) && LostBy(c, k + 1, gone)
                && Gains(log, unmounted, priorLog, prior.unmounted, gone + Spoiled(c, list, k, gone0))
                && OldEntries(c, list, k, was, prior.mounts)
      ensures r == Stopped ==> !(c.handoffs(k).goesOn && c.handoffs(k).goesOnAfter)
    {
      hide Split; hide Gains; hide LostBy; hide Imports; hide Finalizes; hide Lost; hide Spoils; hide Kept;
      StillListed(base, list, k, gone0, mounts, prior.mounts);
      ghost var present := m.volumeID in prior.mounts;
      r, moving, gone := TakeOver(prior, c.handoffs(k), base, list, k, m, gone0);
      LostMoreNext(c, k, gone0, gone);
      ghost var spoiled := if present && Spoils(c.handoffs(k), m.volumeID) then {m.volumeID} else {};
      GainsTwice(log, old(unmounted), unmounted, priorLog, old(prior.unmounted), prior.unmounted, gone0, (gone - gone0) + spoiled);
      assert gone0 + ((gone - gone0) + spoiled) == gone + spoiled && gone + {} == gone;
      MovedIsNotSpoiled(c.handoffs(k), m.volumeID);
      MovedIsElsewhere(base, list, k, gone, mounts, prior.mounts, r == Moved, moving);
      if r != Moved { HandedStops(c, list, k, moving, gone0); }
      SplitApart(base, list, if r == Moved then k + 1 else k, moving, gone, mounts, prior.mounts);
    }

    /** `TakeoverFrom` up to its deferred release. */
    method HandAll(prior: Manager, c: Course)
      returns (r: Outcome, ghost list: seq<Mounted>, ghost k: nat, ghost moving: bool, ghost before: set<string>, ghost gone: set<string>)
      requires prior != this && Keyed() && prior.Keyed() && Disjoint(Now(prior))
      modifies this, prior
      ensures Ids(list) && Holds(old(prior.mounts), map[], list, {})
      ensures Keyed() && prior.Keyed() && Split(old(mounts), list, k, moving, gone, mounts, prior.mounts) && Disjoint(Now(prior))
      ensures LostBy(c, k, before) && LostBy(c, k + 1, gone)
      ensures Gains(old(unmounted), unmounted, old(prior.unmounted), prior.unmounted, gone + Spoiled(c, list, k, before))
      ensures OldEntries(c, list, k, old(prior.mounts), prior.mounts)
      ensures prior.takeover == (old(prior.takeover) || (c.supported && c.inventory != Unsent))
      ensures HandedOver(c, list, k, moving, before) && before <= gone
      ensures r == Done <==> Began(c) && k == |list|
      ensures r == Unsupported <==> !c.supported
      ensures r == Crashed ==> !c.goesOn || (k < |list| && !(c.handoffs(k).goesOn && c.handoffs(k).goesOnAfter))
      ensures startup == if r == Done then TookOver(|list|) else old(startup)
      ensures takeover == old(takeover)
    {
      hide Split; hide Gains; hide Holds; hide Ids; hide LostBy; hide Imports; hide Finalizes; hide Lost; hide Spoils; hide Kept;
      k, moving, before, gone := 0, false, {}, {};
      GainsNone(unmounted, prior.unmounted);
      assert gone + {} == gone;
      LostNone(c);
      var inventory := [];
      if c.supported && c.inventory != Unsent {
        inventory := prior.Inventory();
        list := inventory;
      } else {
        list := prior.ListMounts();
      }
      SplitStarts(mounts, list, prior.mounts);
      if !c.supported { return Unsupported, list, k, moving, before, gone; }
      if !c.goesOn { return Crashed, list, k, moving, before, gone; }
      if c.inventory != Answered { return Failed, list, k, moving, before, gone; }
      for i := 0 to |inventory|
        invariant k == i && !moving && takeover == old(takeover) && startup == old(startup)
        invariant Advanced(prior, c, old(mounts), list, k, gone, old(unmounted), old(prior.unmounted), old(prior.mounts))
      {
        before := gone;
        var outcome;
        outcome, moving, gone := HandNext(prior, c, old(mounts), list, i, inventory[i], gone, old(unmounted), old(prior.unmounted), old(prior.mounts));
        if outcome != Moved {
          return if outcome == Stopped then Crashed else Failed, list, k, moving, before, gone;
        }
        k := k + 1;
      }
      before := gone;
      LostMore(c, k, gone);
      SplitApart(old(mounts), list, k, moving, gone, mounts, prior.mounts);
      startup := TookOver(|inventory|);
      assert k == |list| && Began(c);
      assert Spoiled(c, list, k, before) == {} && gone + {} == gone;
      return Done, list, k, moving, before, gone;
    }

    /** The deferred `ReleaseTakeover`, if it gets through. */
    method ReleaseLater(sent: Delivery)
      modifies this`takeover
      ensures takeover == if sent == Unsent then old(takeover) else false
    {
      if sent != Unsent { takeover := false; }
    }

    /** `TakeoverFrom`. Whatever is lost, refused or cut short: when it is over, or about to wait
        for the answer to its release, the first `k` volumes of the old manager's inventory are
        here, unchanged, the later ones still there, unchanged, and at most one, the `k`-th, in
        neither, exactly when its finalize took effect and its import did not. From a release on
        the old manager is open while this one still waits: then the tables stay disjoint exactly
        as long as no client's mount of a volume here is accepted there. Until then exactly the
        volumes whose worker exited have lost their target, and the `k`-th if its adopting worker
        was started and did not become ready; of the entries still there at most the `k`-th's is
        marked as prepared for a restart, exactly if it prepared and was not cancelled. */
    method TakeoverFrom(prior: Manager, c: Course)
      returns (r: Outcome, ghost list: seq<Mounted>, ghost k: nat, ghost moving: bool, ghost before: set<string>, ghost gone: set<string>, ghost handed: Tables, ghost log: seq<string>, ghost priorLog: seq<string>)
      requires prior != this && Keyed() && prior.Keyed() && Disjoint(Now(prior))
      modifies this, prior
      ensures Ids(list) && Holds(old(prior.mounts), map[], list, {}) && Keyed() && prior.Keyed()
      ensures Split(old(mounts), list, k, moving, gone, handed.here, handed.there) && Disjoint(handed)
      ensures HandedOver(c, list, k, moving, before) && before <= gone && LostBy(c, k + 1, gone)
      ensures r == Done <==> Began(c) && k == |list|
      ensures r == Unsupported <==> !c.supported
      ensures r == Crashed ==> !c.goesOn || (k < |list| && !(c.handoffs(k).goesOn && c.handoffs(k).goesOnAfter))
      ensures LostBy(c, k, before) && OldEntries(c, list, k, old(prior.mounts), handed.there)
      ensures Gains(old(unmounted), log, old(prior.unmounted), priorLog, gone + Spoiled(c, list, k, before)) && log <= unmounted && priorLog <= prior.unmounted
      ensures r != Failed ==> Now(prior) == handed && log == unmounted && priorLog == prior.unmounted
      ensures r == Failed ==> Now(prior) == Play(handed, c.after) && (AlwaysDisjoint(handed, c.after) <==> NeverAgain(handed, c.after))
      ensures handed.closed == if r == Failed && c.release != Unsent then false else old(prior.takeover) || (c.supported && c.inventory != Unsent)
      ensures startup == if r == Done then TookOver(|list|) else old(startup)
    {
      hide Split; hide Gains; hide Holds; hide Ids; hide LostBy; hide Imports; hide Finalizes; hide Disjoint; hide Play; hide AlwaysDisjoint; hide NeverAgain;
      r, list, k, moving, before, gone := HandAll(prior, c);
      if r == Failed { prior.ReleaseLater(c.release); }
      handed, log, priorLog := Now(prior), unmounted, prior.unmounted;
      SplitApart(old(mounts), list, k, moving, gone, handed.here, handed.there);
      if r == Failed {
        assert Disjoint(handed) by { TablesApart(handed); }
        DisjointIff(handed, c.after);
        Meanwhile(prior, c.after);
      }
    }
  }

  lemma NothingLostYet(t: Tables, es: seq<Event>)
    ensures LostFrom(t, es[..0]) == {} && t.here - NewLost(es[..0]) == t.here && t.there - OldLost(es[..0]) == t.there
  {
  }

  lemma PlayNone(t: Tables, es: seq<Event>)
    ensures Play(t, es[..0]) == t
  {
  }

  lemma LostParts(h: Handoff)
    ensures Lost(h) == OldLost(h.first) + OldLost(h.before) + OldLost(h.between) + NewLost(h.first) + NewLost(h.before) + NewLost(h.between)
  {
    LostJoin(h.first, h.before);
    LostJoin(h.first + h.before, h.between);
  }

  lemma LostJoin(a: seq<Event>, b: seq<Event>)
    ensures OldLost(a + b) == OldLost(a) + OldLost(b) && NewLost(a + b) == NewLost(a) + NewLost(b)
  {
  }

  lemma TablesApart(t: Tables)
    requires t.here.Keys !! t.there.Keys
    ensures Disjoint(t)
  {
  }

  /** The first `k` volumes were all finalized and imported, the next, still there after the
      exits `before`, was not, and it is in neither table exactly when only its finalize took
      effect. */
  ghost predicate HandedOver(c: Course, list: seq<Mounted>, k: nat, moving: bool, before: set<string>) {
    && k <= |list|
    && (forall j :: 0 <= j < k ==> Began(c) && Imports(c.handoffs(j), list[j].volumeID))
    && (k < |list| && Began(c) && list[k].volumeID !in before ==> !Imports(c.handoffs(k), list[k].volumeID))
    && (moving <==> k < |list| && Began(c) && list[k].volumeID !in before && Finalizes(c.handoffs(k), list[k].volumeID))
  }

  lemma HandedStops(c: Course, list: seq<Mounted>, k: nat, moving: bool, before: set<string>)
    requires k < |list| && Began(c) && forall j :: 0 <= j < k ==> Imports(c.handoffs(j), list[j].volumeID)
    requires list[k].volumeID !in before ==> !Imports(c.handoffs(k), list[k].volumeID)
    requires moving <==> list[k].volumeID !in before && Finalizes(c.handoffs(k), list[k].volumeID) && !Imports(c.handoffs(k), list[k].volumeID)
    ensures HandedOver(c, list, k, moving, before)
  {
    hide Finalizes; hide Imports;
  }

  /** The volume whose adopting worker was started, did not become ready, and took the mount with
      it. */
  ghost function Spoiled(c: Course, list: seq<Mounted>, k: nat, before: set<string>): set<string> {
    if k < |list| && Began(c) && list[k].volumeID !in before && Spoils(c.handoffs(k), list[k].volumeID) then {list[k].volumeID} else {}
  }

  /** Every entry that stays in the old table is as it was, but that the `k`-th may be left
      prepared for a restart that does not come. */
  ghost predicate OldEntries(c: Course, list: seq<Mounted>, k: nat, was: map<string, Entry>, now: map<string, Entry>) {
    forall u :: u in now ==>
      u in was && now[u] == if k < |list| && Began(c) && u == list[k].volumeID then Kept(was[u], c.handoffs(k)) else was[u]
  }

  /** Which worker is left prepared for a restart that does not come. */
  lemma LeftPreparedIff(c: Course, list: seq<Mounted>, k: nat, was: map<string, Entry>, now: map<string, Entry>, u: string)
    requires OldEntries(c, list, k, was, now) && u in now && !was[u].worker.prepared
    ensures now[u].worker.prepared <==> k < |list| && Began(c) && u == list[k].volumeID && Prepares(c.handoffs(k)) && !Cancels(c.handoffs(k))
  {
  }

  lemma MovedIsNotSpoiled(h: Handoff, v: string)
    ensures Imports(h, v) ==> !Spoils(h, v)
  {
  }

  lemma MovedIsElsewhere(base: map<string, Entry>, list: seq<Mounted>, k: nat, gone: set<string>,
                         newTable: map<string, Entry>, oldTable: map<string, Entry>, moved: bool, moving: bool)
    requires k < |list| && Split(base, list, if moved then k + 1 else k, moving, gone, newTable, oldTable) && (moved ==> !moving)
    ensures moved ==> list[k].volumeID !in oldTable
  {
    if moved {
      hide Ids; hide Holds; hide InTable;
      var v := list[k].volumeID;
      HoldsOnly(oldTable, map[], list[k + 1..], gone, v);
      NotAfter(list, k);
    }
  }

  /** Every volume in `gone` lost its worker in one of the first `n` handovers. */
  ghost predicate LostBy(c: Course, n: nat, gone: set<string>) {
    forall v :: v in gone ==> exists j :: 0 <= j < n && v in Lost(c.handoffs(j))
  }

  lemma LostNone(c: Course)
    ensures forall n: nat :: LostBy(c, n, {})
  {
  }

  lemma LostMore(c: Course, n: nat, gone: set<string>)
    requires LostBy(c, n, gone)
    ensures LostBy(c, n + 1, gone)
  {
    hide Lost;
  }

  lemma LostMoreNext(c: Course, n: nat, before: set<string>, gone: set<string>)
    requires LostBy(c, n, before) && gone <= before + Lost(c.handoffs(n))
    ensures LostBy(c, n + 1, gone) && LostBy(c, n + 2, gone)
  {
    hide Lost;
    forall v | v in gone ensures exists j :: 0 <= j < n + 1 && v in Lost(c.handoffs(j)) {
      if v !in before { assert v in Lost(c.handoffs(n)); }
    }
  }

  // ---------------------------------------------------------------------- generations

  ghost predicate SmoothCourse(c: Course) {
    Began(c) && forall j :: Smooth(c.handoffs(j))
  }

  lemma SmoothIsDone(c: Course, list: seq<Mounted>, k: nat, moving: bool, before: set<string>, gone: set<string>)
    requires SmoothCourse(c) && HandedOver(c, list, k, moving, before) && before <= gone && LostBy(c, k + 1, gone)
    ensures k == |list| && gone == {} && !moving
  {
    hide Smooth; hide Imports; hide Finalizes; hide Lost;
    assert forall j: nat :: Smooth(c.handoffs(j)) ==> Lost(c.handoffs(j)) == {} by {
      forall j: nat ensures Smooth(c.handoffs(j)) ==> Lost(c.handoffs(j)) == {} { SmoothMoves(c.handoffs(j), ""); }
    }
    assert gone == {};
    SmoothMoves(c.handoffs(k), if k < |list| then list[k].volumeID else "");
  }

  lemma SmoothMoves(h: Handoff, v: string)
    ensures Smooth(h) ==> Imports(h, v) && Lost(h) == {}
  {
  }

  /** `n` services taking over one after the other: every volume whose worker lived keeps every
      recorded field, and no adoption flag ever accumulates. When nothing fails, every one
      succeeds and nothing is lost. */
  method Generations(first: Manager, n: nat, courses: nat -> Course) returns (last: Manager, ok: bool, ghost died: set<string>)
    requires first.Keyed()
    modifies first
    ensures ok ==> SameMounts(old(first.mounts) - died, last.mounts)
    ensures ok && n > 0 ==> AllAdopted(last.mounts) && first.mounts == map[] && first.takeover
    ensures (forall i :: 0 <= i < n ==> SmoothCourse(courses(i))) ==> ok && died == {}
  {
    hide Split; hide Holds; hide Ids; hide SameMounts; hide AllAdopted; hide Gains; hide SmoothCourse; hide HandedOver; hide LostBy;
    last, died := first, {};
    SameMountsStart(first.mounts);
    for i := 0 to n
      invariant last.Keyed() && (i == 0 <==> last == first) && (last != first ==> fresh(last))
      invariant SameMounts(old(first.mounts) - died, last.mounts)
      invariant i > 0 ==> AllAdopted(last.mounts) && first.mounts == map[] && first.takeover
      invariant (forall j :: 0 <= j < i ==> SmoothCourse(courses(j))) ==> died == {}
    {
      var next := new Manager();
      ghost var was := last.mounts;
      var r, list, k, moving, before, gone, handed, log, priorLog := next.TakeoverFrom(last, courses(i));
      if SmoothCourse(courses(i)) {
        SmoothIsDone(courses(i), list, k, moving, before, gone);
        SmoothBegan(courses(i));
      }
      if r != Done { return last, false, died; }
      NotMoving(courses(i), list, k, moving, before);
      DoneMeansAll(list, gone, was, next.mounts, last.mounts);
      SameMountsOn(old(first.mounts), died, was, gone, next.mounts);
      last, died := next, died + gone;
    }
    ok := true;
  }

  lemma SmoothBegan(c: Course)
    requires SmoothCourse(c)
    ensures Began(c)
  {
  }

  lemma NotMoving(c: Course, list: seq<Mounted>, k: nat, moving: bool, before: set<string>)
    requires HandedOver(c, list, k, moving, before) && k == |list|
    ensures !moving
  {
  }
}
