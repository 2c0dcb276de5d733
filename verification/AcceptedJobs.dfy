/** Proof that the runner holds no accepted job: nine scalar status filters, each followed
    through its complete bounded pagination. */
module AcceptedJobs {
  import opened Pods

  /** The nonterminal statuses in the order they are observed. */
  const ACTIVE := ["created", "waiting_for_resource", "preparing", "waiting_for_callback",
                   "pending", "manual", "scheduled", "running", "canceling"]

  const MAX_PAGES := 100

  datatype Job = Job(id: int, status: string)

  /** A well-typed reply, or a failed or ill-typed request. */
  datatype Reply = Failed | Page(jobs: seq<Job>, next: Option<string>)

  /** What the server answers to a page of a status filter. No page of a filter is ever
      requested twice, so this is as general as a server that changes its mind. */
  type Server = (string, string) -> Reply

  predicate Numeral(s: string) {
    s != "" && s[0] != '0' && forall c :: c in s ==> '0' <= c <= '9'
  }

  /** Page `b` follows page `a`. */
  ghost predicate Follows(server: Server, status: string, a: string, b: string) {
    server(status, a).Page? && server(status, a).next == Some(b) && Numeral(b)
  }

  ghost predicate Unique(trail: seq<string>) {
    forall i, j :: 0 <= i < j < |trail| ==> trail[i] != trail[j]
  }

  /** A trail of at most a hundred empty pages from page 1, none visited twice. */
  ghost predicate Trail(server: Server, status: string, trail: seq<string>) {
    && 0 < |trail| <= 100 && trail[0] == "1" && Unique(trail)
    && forall i :: 0 <= i < |trail| - 1 ==>
         Follows(server, status, trail[i], trail[i + 1]) && server(status, trail[i]).jobs == []
  }

  ghost predicate GoodJobs(jobs: seq<Job>, status: string) {
    && (forall v :: v in jobs ==> v.id > 0 && v.status == status)
    && (forall i, j :: 0 <= i < j < |jobs| ==> jobs[i].id != jobs[j].id)
  }

  /** The complete chain of the filter is empty. */
  ghost predicate EmptyChain(server: Server, status: string, trail: seq<string>) {
    && Trail(server, status, trail)
    && server(status, trail[|trail| - 1]) == Page([], Some(""))
  }

  /** Empty pages, then a page of jobs of exactly this status with sound pagination. */
  ghost predicate BusyChain(server: Server, status: string, trail: seq<string>) {
    && Trail(server, status, trail)
    && var last := server(status, trail[|trail| - 1]);
       && last.Page? && last.jobs != [] && GoodJobs(last.jobs, status)
       && last.next.Some? && (last.next.value == "" || (Numeral(last.next.value) && last.next.value !in trail))
  }

  ghost predicate StatusIdle(server: Server, status: string) {
    exists trail :: EmptyChain(server, status, trail)
  }

  ghost predicate StatusBusy(server: Server, status: string) {
    exists trail :: BusyChain(server, status, trail)
  }

  /** Trails of one server can only extend each other. */
  lemma {:induction false} TrailsAgree(server: Server, status: string, a: seq<string>, b: seq<string>, n: nat)
    requires Trail(server, status, a) && Trail(server, status, b) && n <= |a| && n <= |b|
    ensures a[..n] == b[..n]
  {
    if n > 1 {
      TrailsAgree(server, status, a, b, n - 1);
      assert a[..n - 1][n - 2] == b[..n - 1][n - 2];
      assert Follows(server, status, a[n - 2], a[n - 1]) && Follows(server, status, b[n - 2], b[n - 1]);
      assert a[..n] == a[..n - 1] + [a[n - 1]] && b[..n] == b[..n - 1] + [b[n - 1]];
    }
  }

  lemma Extends(server: Server, status: string, a: seq<string>, b: seq<string>)
    requires Trail(server, status, a) && Trail(server, status, b) && |a| <= |b|
    ensures a == b[..|a|] && a[|a| - 1] == b[|a| - 1]
    ensures |a| < |b| ==> b[|a|] !in a && Follows(server, status, a[|a| - 1], b[|a|]) && server(status, a[|a| - 1]).jobs == []
  {
    TrailsAgree(server, status, a, b, |a|);
    assert a == a[..|a|];
    if |a| < |b| {
      assert forall i :: 0 <= i < |a| ==> a[i] == b[..|a|][i] == b[i];
    }
  }

  /** The trail cannot go on past its last page. */
  ghost predicate Stuck(server: Server, status: string, trail: seq<string>)
    requires |trail| > 0
  {
    var last := server(status, trail[|trail| - 1]);
    last.Page? && last.jobs == [] && last.next.Some? && Numeral(last.next.value) ==> last.next.value in trail
  }

  /** Every chain stops where a stuck trail stops, or before. */
  lemma StopsBy(server: Server, status: string, trail: seq<string>, chain: seq<string>)
    requires Trail(server, status, trail) && Trail(server, status, chain) && Stuck(server, status, trail)
    ensures |chain| <= |trail|
  {
    if |trail| < |chain| { Extends(server, status, trail, chain); }
  }

  /** A chain that ends in jobs or in the last page cannot be continued. */
  lemma ChainIsStuck(server: Server, status: string, chain: seq<string>)
    requires EmptyChain(server, status, chain) || BusyChain(server, status, chain)
    ensures Stuck(server, status, chain)
  {
  }

  /** A stuck trail is the only chain there can be. */
  lemma OnlyChain(server: Server, status: string, trail: seq<string>, chain: seq<string>)
    requires Trail(server, status, trail) && Stuck(server, status, trail)
    requires EmptyChain(server, status, chain) || BusyChain(server, status, chain)
    ensures chain == trail
  {
    ChainIsStuck(server, status, chain);
    StopsBy(server, status, trail, chain);
    StopsBy(server, status, chain, trail);
    Extends(server, status, chain, trail);
  }

  lemma OnlyVerdict(server: Server, status: string, trail: seq<string>)
    requires Trail(server, status, trail) && Stuck(server, status, trail)
    ensures StatusIdle(server, status) <==> EmptyChain(server, status, trail)
    ensures StatusBusy(server, status) <==> BusyChain(server, status, trail)
  {
    if StatusIdle(server, status) {
      var chain :| EmptyChain(server, status, chain);
      OnlyChain(server, status, trail, chain);
    }
    if StatusBusy(server, status) {
      var chain :| BusyChain(server, status, chain);
      OnlyChain(server, status, trail, chain);
    }
  }

  /** A full-length trail that would go on is no chain's beginning. */
  lemma TooLong(server: Server, status: string, trail: seq<string>)
    requires Trail(server, status, trail) && |trail| == MAX_PAGES
    requires var last := server(status, trail[|trail| - 1]); last.Page? && last.jobs == [] && last.next.Some? && last.next.value != ""
    ensures !StatusIdle(server, status) && !StatusBusy(server, status)
  {
    forall chain | EmptyChain(server, status, chain) || BusyChain(server, status, chain) ensures false {
      ChainIsStuck(server, status, chain);
      StopsBy(server, status, chain, trail);
      Extends(server, status, chain, trail);
    }
  }

  /** One filter: every page is requested at most once and at most a hundred are requested. */
  method StatusDrained(server: Server, status: string) returns (r: Result<bool>, requests: nat)
    ensures r == Ok(true) <==> StatusIdle(server, status)
    ensures r == Ok(false) <==> StatusBusy(server, status)
    ensures requests <= 100
  {
    var page := "1";
    var seen: set<string> := {};
    ghost var trail: seq<string> := ["1"];
    requests := 0;
    while true
      invariant Trail(server, status, trail) && page == trail[|trail| - 1]
      invariant (forall p :: p in seen + {page} <==> p in trail) && page !in seen
      invariant |seen| == |trail| - 1 == requests
      decreases MAX_PAGES - |trail|
    {
      hide Trail;
      hide StatusIdle; hide StatusBusy;
      seen := seen + {page};
      requests := requests + 1;
      var reply := server(status, page);
      var sound := SoundPage(reply, status, seen);
      if !sound || reply.jobs != [] || reply.next.value == "" {
        OnlyVerdict(server, status, trail);
        NotEmptyPage(server, status, trail);
        return if !sound then Refuse else Ok(reply.jobs == []), requests;
      }
      if |seen| >= MAX_PAGES {
        TooLong(server, status, trail);
        return Refuse, requests;
      }
      TrailGrows(server, status, trail, reply.next.value);
      page := reply.next.value;
      trail := trail + [page];
    }
  }

  lemma TrailGrows(server: Server, status: string, trail: seq<string>, page: string)
    requires Trail(server, status, trail) && |trail| < MAX_PAGES && page !in trail
    requires Follows(server, status, trail[|trail| - 1], page) && server(status, trail[|trail| - 1]).jobs == []
    ensures Trail(server, status, trail + [page])
  {
  }

  /** The checks on one reply: every job listed is new, positive and of the status asked for,
      and the next page is present, well formed and not yet requested. */
  method SoundPage(reply: Reply, status: string, seen: set<string>) returns (sound: bool)
    ensures sound <==>
            && reply.Page? && GoodJobs(reply.jobs, status) && reply.next.Some?
            && (reply.next.value == "" || (reply.next.value[0] != '0' && forall c :: c in reply.next.value ==> '0' <= c <= '9'))
            && reply.next.value !in seen
  {
    if reply.Failed? { return false; }
    var ids: set<int> := {};
    for k := 0 to |reply.jobs|
      invariant GoodJobs(reply.jobs[..k], status)
      invariant forall x :: x in ids <==> exists i :: 0 <= i < k && reply.jobs[i].id == x
    {
      var v := reply.jobs[k];
      assert v in reply.jobs;
      assert reply.jobs[..k + 1] == reply.jobs[..k] + [v];
      if v.id <= 0 || v.id in ids || v.status != status { return false; }
      ids := ids + {v.id};
    }
    assert reply.jobs[..|reply.jobs|] == reply.jobs;
    sound := reply.next.Some? && (reply.next.value == "" || Numeral(reply.next.value)) && reply.next.value !in seen;
  }

  /** The empty string is no page of a trail. */
  lemma NotEmptyPage(server: Server, status: string, trail: seq<string>)
    requires Trail(server, status, trail)
    ensures "" !in trail
  {
    forall i | 0 <= i < |trail| ensures trail[i] != "" {
      if i > 0 { assert Follows(server, status, trail[i - 1], trail[i]); }
    }
  }

  /** The nine statuses and their order. */
  lemma NineStatuses(server: Server)
    ensures ACTIVE == ["created", "waiting_for_resource", "preparing", "waiting_for_callback", "pending", "manual",
                       "scheduled", "running", "canceling"]
    ensures (forall k :: 0 <= k < |ACTIVE| ==> StatusIdle(server, ACTIVE[k])) <==>
            && StatusIdle(server, "created") && StatusIdle(server, "waiting_for_resource") && StatusIdle(server, "preparing")
            && StatusIdle(server, "waiting_for_callback") && StatusIdle(server, "pending") && StatusIdle(server, "manual")
            && StatusIdle(server, "scheduled") && StatusIdle(server, "running") && StatusIdle(server, "canceling")
  {
    hide StatusIdle;
    assert StatusIdle(server, ACTIVE[0]) <==> StatusIdle(server, "created");
    assert StatusIdle(server, ACTIVE[1]) <==> StatusIdle(server, "waiting_for_resource");
    assert StatusIdle(server, ACTIVE[2]) <==> StatusIdle(server, "preparing");
    assert StatusIdle(server, ACTIVE[3]) <==> StatusIdle(server, "waiting_for_callback");
    assert StatusIdle(server, ACTIVE[4]) <==> StatusIdle(server, "pending");
    assert StatusIdle(server, ACTIVE[5]) <==> StatusIdle(server, "manual");
    assert StatusIdle(server, ACTIVE[6]) <==> StatusIdle(server, "scheduled");
    assert StatusIdle(server, ACTIVE[7]) <==> StatusIdle(server, "running");
    assert StatusIdle(server, ACTIVE[8]) <==> StatusIdle(server, "canceling");
  }

  /** Idle exactly when each of the nine nonterminal statuses has a complete empty chain; busy
      exactly when, in their order, one shows a job of that status and all before it are idle;
      anything else refuses. At most nine hundred requests. */
  method Drained(server: Server) returns (r: Result<bool>, requests: nat)
    ensures r == Ok(true) <==>
            && StatusIdle(server, "created") && StatusIdle(server, "waiting_for_resource") && StatusIdle(server, "preparing")
            && StatusIdle(server, "waiting_for_callback") && StatusIdle(server, "pending") && StatusIdle(server, "manual")
            && StatusIdle(server, "scheduled") && StatusIdle(server, "running") && StatusIdle(server, "canceling")
    ensures r == Ok(false) <==>
            var order := ["created", "waiting_for_resource", "preparing", "waiting_for_callback", "pending", "manual",
                          "scheduled", "running", "canceling"];
            exists k :: 0 <= k < |order| && StatusBusy(server, order[k]) && forall j :: 0 <= j < k ==> StatusIdle(server, order[j])
    ensures requests <= 900
  {
    requests := 0;
    NineStatuses(server);
    for k := 0 to |ACTIVE|
      invariant requests <= k * MAX_PAGES
      invariant forall j :: 0 <= j < k ==> StatusIdle(server, ACTIVE[j]) && !StatusBusy(server, ACTIVE[j])
    {
      hide StatusIdle; hide StatusBusy;
      var one, n := StatusDrained(server, ACTIVE[k]);
      requests := requests + n;
      if one != Ok(true) {
        assert !(forall j :: 0 <= j < |ACTIVE| ==> StatusIdle(server, ACTIVE[j]));
        return one, requests;
      }
    }
    return Ok(true), requests;
  }
}
