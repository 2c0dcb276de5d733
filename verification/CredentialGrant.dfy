/** One bucket credential kept in two places: the identity file the driver writes and the Secret
    the provisioner sidecar writes. Both are reached through calls that can fail before or after
    they take effect, and an attempt can stop after any of them; attempts repeat. */
module CredentialGrant {
  import opened Pods
  import opened Environment

  datatype Credential = Credential(accessKey: string, secretKey: string)

  datatype S3Identity = S3Identity(name: string, credentials: seq<Credential>, actions: seq<string>)

  /** What a credentials Secret holds under "BucketInfo". */
  datatype Info = Absent | Unreadable | NotS3 | S3(endpoint: string, region: string, credential: Credential)

  datatype Reply = Rejected | Granted(account: string, credential: Credential, endpoint: string, region: string)

  datatype Attempt = Done | Retry

  /** How far each call of one attempt gets: the look-up of the Secret, the read and the write of
      the identity, the driver's answer, the creation of the Secret, and the three updates of the
      grant. An identity write that fails may linger and land later. */
  datatype Try = Try(
    look: Delivery, read: Delivery, save: Delivery, lingers: bool, reply: Delivery,
    create: Delivery, bucket: Delivery, access: Delivery, status: Delivery)

  predicate AllAnswered(t: Try) {
    && t.look == t.read == t.save == t.reply == t.create == Answered
    && t.bucket == t.access == t.status == Answered
  }

  /** The identity write is attempted, fails, and is still under way. */
  predicate Lingers(t: Try) {
    t.look == Answered && t.read == Answered && t.save == Unsent && t.lingers
  }

  const ACCESS_KEY := "cosi.seaweedfs.io/accessKeyID"
  const SECRET_KEY := "cosi.seaweedfs.io/accessSecretKey"

  predicate Usable(c: Credential) {
    c.accessKey != "" && c.secretKey != ""
  }

  function Get(params: map<string, string>, key: string): string {
    if key in params then params[key] else ""
  }

  /** `desiredCredential`: the class's two keys if it gives both. */
  function Desired(params: map<string, string>): (r: Option<Credential>)
    ensures r.Some? <==>
            && "cosi.seaweedfs.io/accessKeyID" in params && params["cosi.seaweedfs.io/accessKeyID"] != ""
            && "cosi.seaweedfs.io/accessSecretKey" in params && params["cosi.seaweedfs.io/accessSecretKey"] != ""
    ensures r.Some? ==> r.value == Credential(params["cosi.seaweedfs.io/accessKeyID"], params["cosi.seaweedfs.io/accessSecretKey"])
  {
    var c := Credential(Get(params, ACCESS_KEY), Get(params, SECRET_KEY));
    if Usable(c) then Some(c) else None
  }

  /** `firstUsableCredential`. */
  method FirstUsable(cs: seq<Credential>) returns (r: Option<Credential>)
    ensures r.None? <==> forall c :: c in cs ==> c.accessKey == "" || c.secretKey == ""
    ensures r.Some? ==> r.value.accessKey != "" && r.value.secretKey != ""
    ensures r.Some? ==> exists i :: 0 <= i < |cs| && cs[i] == r.value && forall j :: 0 <= j < i ==> cs[j].accessKey == "" || cs[j].secretKey == ""
  {
    for i := 0 to |cs|
      invariant forall j :: 0 <= j < i ==> !Usable(cs[j])
    {
      if Usable(cs[i]) { return Some(cs[i]); }
    }
    return None;
  }

  /** `actionsForPolicy`. */
  function Actions(policy: string): Option<seq<string>> {
    if policy == "readonly" then Some(["Read", "List"])
    else if policy == "readwrite" || policy == "" then Some(["Read", "Write", "List", "Tagging"])
    else None
  }

  ghost predicate KnownPolicy(policy: string) {
    policy == "readonly" || policy == "readwrite" || policy == ""
  }

  lemma ActionsKnown(policy: string)
    ensures Actions(policy).Some? <==> KnownPolicy(policy)
  {
  }

  ghost predicate NoDuplicates(ss: seq<string>) {
    forall i, j :: 0 <= i < j < |ss| ==> ss[i] != ss[j]
  }

  /** `after` keeps `before` in place and adds only members of `wanted` it lacked. */
  ghost predicate Grown(before: seq<string>, after: seq<string>, wanted: set<string>) {
    && before <= after && (NoDuplicates(before) ==> NoDuplicates(after))
    && (forall a :: a in after <==> a in before || a in wanted)
  }

  ghost function Wanted(actions: seq<string>, bucket: string): set<string> {
    set a | a in actions :: a + ":" + bucket
  }

  method AddActions(before: seq<string>, actions: seq<string>, bucket: string) returns (after: seq<string>)
    ensures Grown(before, after, Wanted(actions, bucket))
  {
    after := before;
    for i := 0 to |actions|
      invariant Grown(before, after, Wanted(actions[..i], bucket))
    {
      var action := actions[i] + ":" + bucket;
      assert actions[..i + 1] == actions[..i] + [actions[i]];
      assert Wanted(actions[..i + 1], bucket) == Wanted(actions[..i], bucket) + {action};
      if action !in after { after := after + [action]; }
    }
    assert actions[..|actions|] == actions;
  }

  /** The rights `after` are those `before`, in place, and what the policy gives on the bucket:
      reading and listing, or reading, writing, listing and tagging, and nothing else. */
  ghost predicate Allows(policy: string, bucket: string, before: seq<string>, after: seq<string>) {
    && before <= after && (NoDuplicates(before) ==> NoDuplicates(after))
    && "Read:" + bucket in after && "List:" + bucket in after
    && if policy == "readonly" then
         forall a :: a in after ==> a in before || a == "Read:" + bucket || a == "List:" + bucket
       else
         && (policy == "readwrite" || policy == "") && "Write:" + bucket in after && "Tagging:" + bucket in after
         && forall a :: a in after ==>
              a in before || a == "Read:" + bucket || a == "Write:" + bucket || a == "List:" + bucket || a == "Tagging:" + bucket
  }

  lemma GrownAllows(policy: string, bucket: string, before: seq<string>, after: seq<string>)
    requires Actions(policy).Some? && Grown(before, after, Wanted(Actions(policy).value, bucket))
    ensures Allows(policy, bucket, before, after)
  {
    var given := Actions(policy).value;
    hide NoDuplicates;
    assert given[0] in given && given[0] + ":" == "Read:";
    if policy == "readonly" {
      assert given[1] in given && given[1] + ":" == "List:";
      assert Wanted(given, bucket) == {"Read" + ":" + bucket, "List" + ":" + bucket};
    } else {
      assert given[1] in given && given[2] in given && given[3] in given;
      assert "Write" + ":" == "Write:" && "List" + ":" == "List:" && "Tagging" + ":" == "Tagging:";
      assert Wanted(given, bucket) == {"Read" + ":" + bucket, "Write" + ":" + bucket, "List" + ":" + bucket, "Tagging" + ":" + bucket};
    }
  }

  lemma AllowsMore(policy: string, bucket: string, before: seq<string>, after: seq<string>)
    requires Allows(policy, bucket, before, after)
    ensures before <= after && (NoDuplicates(before) ==> NoDuplicates(after))
  {
  }

  /** Rights once given stay given, and no others come with the next grant. */
  lemma AllowsTwice(policy: string, bucket: string, a: seq<string>, b: seq<string>, c: seq<string>)
    requires Allows(policy, bucket, a, b) && Allows(policy, bucket, b, c)
    ensures Allows(policy, bucket, a, c)
  {
    hide NoDuplicates;
  }

  /** One turn of a longer run: an attempt, or the landing of a write that failed before. */
  datatype Turn = Attempts(minted: Credential, t: Try) | Landing(index: nat)

  /** No write fails and lingers before one takes effect. */
  ghost predicate FailsLate(turns: nat -> Turn, n: nat) {
    forall i :: 0 <= i < n && turns(i).Attempts? && Lingers(turns(i).t) ==>
      exists j :: 0 <= j < i && turns(j).Attempts? && TakesEffect(turns(j).t)
  }

  /** The identity write takes effect. */
  predicate TakesEffect(t: Try) {
    t.look == Answered && t.read == Answered && t.save != Unsent
  }

  /** What a grant settles on: the credential asked for, else one the identity has, else the new
      one. */
  ghost predicate Picks(asked: Option<Credential>, has: seq<Credential>, minted: Credential, c: Credential) {
    if asked.Some? then asked == Some(c)
    else if forall d :: d in has ==> !Usable(d) then c == minted
    else c in has && Usable(c)
  }

  /** One more write of `user` may still land. */
  ghost predicate OneMoreLate(before: seq<S3Identity>, after: seq<S3Identity>, user: string, asked: Option<Credential>, has: seq<Credential>, minted: Credential) {
    && |after| == |before| + 1 && before <= after
    && var w := after[|before|];
       w.name == user && |w.credentials| == 1 && Picks(asked, has, minted, w.credentials[0])
  }

  class Driver {
    var identities: map<string, S3Identity>
    /** Writes that failed and may still land. */
    var late: seq<S3Identity>
    const endpoint: string
    const region: string

    constructor (endpoint: string, region: string)
      ensures identities == map[] && late == []
    {
      identities, late := map[], [];
      this.endpoint, this.region := endpoint, region;
    }

    ghost predicate Keyed()
      reads this
    {
      forall u :: u in identities ==> identities[u].name == u
    }

    ghost function Credentials(user: string): seq<Credential>
      reads this
    {
      if user in identities then identities[user].credentials else []
    }

    ghost function Allowed(user: string): seq<string>
      reads this
    {
      if user in identities then identities[user].actions else []
    }

    /** `DriverGrantBucketAccess`, one call at a time. Either nothing is written, or the
        identity holds exactly the credential picked. */
    method Grant(user: string, bucket: string, params: map<string, string>, minted: Credential, t: Try) returns (r: Reply, ghost chosen: Option<Credential>)
      requires Keyed() && Usable(minted) && t.look == Answered
      modifies this
      ensures Keyed() && identities - {user} == old(identities) - {user}
      ensures chosen.Some? <==> TakesEffect(t) && user != "" && bucket != "" && KnownPolicy(Get(params, "accessPolicy"))
      ensures chosen.None? ==> r == Rejected && identities == old(identities)
      ensures chosen.Some? ==> user in identities && Credentials(user) == [chosen.value] && Usable(chosen.value) && late == old(late)
      ensures chosen.Some? ==> Picks(Desired(params), old(Credentials(user)), minted, chosen.value)
      ensures if Lingers(t) && user != "" && bucket != "" && KnownPolicy(Get(params, "accessPolicy"))
              then OneMoreLate(old(late), late, user, Desired(params), old(Credentials(user)), minted)
                   && Allows(Get(params, "accessPolicy"), bucket, old(Allowed(user)), late[|late| - 1].actions)
              else late == old(late)
      ensures chosen.Some? ==> Allows(Get(params, "accessPolicy"), bucket, old(Allowed(user)), Allowed(user))
      ensures r.Granted? ==> user != "" && r.account == user && chosen == Some(r.credential) && r.endpoint == endpoint && r.region == region
      ensures AllAnswered(t) ==> (r.Granted? <==> user != "" && bucket != "" && KnownPolicy(Get(params, "accessPolicy")))
    {
      ActionsKnown(Get(params, "accessPolicy"));
      hide Actions; hide Wanted; hide Grown; hide Allows; hide Desired; hide NoDuplicates;
      chosen := None;
      if user == "" || bucket == "" { return Rejected, chosen; }
      var actions := Actions(Get(params, "accessPolicy"));
      if actions.None? { return Rejected, chosen; }
      if t.read != Answered { return Rejected, chosen; }
      var id := if user in identities then identities[user] else S3Identity(user, [], []);
      var credential := Desired(params);
      if credential.None? { credential := FirstUsable(id.credentials); }
      if credential.None? { credential := Some(minted); }
      var allowed := AddActions(id.actions, actions.value, bucket);
      var write := S3Identity(id.name, [credential.value], allowed);
      GrownAllows(Get(params, "accessPolicy"), bucket, id.actions, allowed);
      if t.save != Unsent {
        identities := identities[id.name := write];
        chosen := credential;
      } else if t.lingers {
        late := late + [write];
      }
      if t.save != Answered || t.reply != Answered { return Rejected, chosen; }
      return Granted(user, credential.value, endpoint, region), chosen;
    }

    /** A write that failed lands after all. */
    method Land(i: nat)
      requires Keyed() && i < |late|
      modifies this`identities
      ensures Keyed() && identities == old(identities)[late[i].name := late[i]]
    {
      identities := identities[late[i].name := late[i]];
    }
  }

  /** `parametersWithExistingS3Credentials`. */
  method WithExisting(params: map<string, string>, info: Info) returns (r: Result<map<string, string>>)
    ensures r.Refuse? <==> info.Unreadable?
    ensures r.Ok? ==> Desired(r.value) == (if Keys(info).Some? then Keys(info) else Desired(params))
    ensures r.Ok? ==> forall k :: k != ACCESS_KEY && k != SECRET_KEY ==> Get(r.value, k) == Get(params, k)
  {
    if info.Unreadable? { return Refuse; }
    var merged := params;
    if info.S3? && info.credential.accessKey != "" && info.credential.secretKey != "" {
      merged := merged[ACCESS_KEY := info.credential.accessKey][SECRET_KEY := info.credential.secretKey];
      assert ACCESS_KEY != SECRET_KEY by { assert ACCESS_KEY[18] != SECRET_KEY[18] || |ACCESS_KEY| != |SECRET_KEY|; }
    }
    return Ok(merged);
  }

  /** The S3 keys a Secret carries. */
  function Keys(info: Info): Option<Credential> {
    if info.S3? && Usable(info.credential) then Some(info.credential) else None
  }

  /** `cs` is one usable credential, and the one asked for if one is. */
  ghost predicate SettledOn(cs: seq<Credential>, asked: Option<Credential>) {
    |cs| == 1 && Usable(cs[0]) && (asked.Some? ==> asked.value == cs[0])
  }

  // -------------------------------------------------------- the two stores over whole runs

  /** The identity's credentials, the writes that may still land, and the Secret. */
  datatype Stores = Stores(has: seq<Credential>, late: seq<S3Identity>, secret: Option<Info>)

  /** The credential a grant is asked for: the Secret's, else the class's. */
  function AskedIn(params: map<string, string>, secret: Option<Info>): Option<Credential> {
    if secret.Some? && Keys(secret.value).Some? then Keys(secret.value) else Desired(params)
  }

  ghost predicate SettledIn(params: map<string, string>, st: Stores) {
    SettledOn(st.has, AskedIn(params, st.secret))
  }

  ghost predicate AgreeIn(st: Stores) {
    st.secret.Some? && (Keys(st.secret.value).Some? ==> st.has == [Keys(st.secret.value).value])
  }

  /** Every write of the account that may still land carries what the identity has. */
  ghost predicate Harmless(account: string, st: Stores) {
    forall w :: w in st.late && w.name == account ==> w.credentials == st.has
  }

  ghost predicate NoneLate(account: string, st: Stores) {
    forall w :: w in st.late ==> w.name != account
  }

  /** The Secret or the class supplies the keys, and every write still under way carries them. */
  ghost predicate Supplied(params: map<string, string>, account: string, st: Stores) {
    AskedIn(params, st.secret).Some? && forall w :: w in st.late && w.name == account ==> w.credentials == [AskedIn(params, st.secret).value]
  }

  /** A grant takes effect, and the Secret may be created with the credential it settled on. */
  ghost predicate GrantStep(params: map<string, string>, st: Stores, st': Stores, minted: Credential) {
    && |st'.has| == 1 && Usable(st'.has[0]) && Picks(AskedIn(params, st.secret), st.has, minted, st'.has[0]) && st'.late == st.late
    && (st'.secret == st.secret || (st.secret.None? && st'.secret.Some? && Keys(st'.secret.value) == Some(st'.has[0])))
  }

  /** What one attempt can do to the stores: nothing, leave a write under way, or grant. */
  ghost predicate AttemptStep(params: map<string, string>, account: string, st: Stores, st': Stores) {
    || st' == st
    || (exists minted :: st' == st.(late := st'.late) && OneMoreLate(st.late, st'.late, account, AskedIn(params, st.secret), st.has, minted))
    || (exists minted :: GrantStep(params, st, st', minted))
  }

  /** A write that failed lands. */
  ghost predicate LandStep(account: string, st: Stores, st': Stores, i: nat) {
    i < |st.late| && st' == if st.late[i].name == account then st.(has := st.late[i].credentials) else st
  }

  ghost predicate Moves(params: map<string, string>, account: string, st: Stores, st': Stores) {
    AttemptStep(params, account, st, st') || exists i :: LandStep(account, st, st', i)
  }

  /** Any mix of attempts and landings. */
  ghost predicate Continuation(params: map<string, string>, account: string, run: seq<Stores>) {
    |run| > 0 && forall k :: 0 <= k < |run| - 1 ==> Moves(params, account, run[k], run[k + 1])
  }

  lemma PicksTheOnly(asked: Option<Credential>, has: seq<Credential>, minted: Credential, c: Credential)
    requires SettledOn(has, asked) && Picks(asked, has, minted, c)
    ensures c == has[0]
  {
    assert has[0] in has;
  }

  /** From a settled state every attempt, also one whose write lingers, carries the credential the
      identity has. */
  lemma AttemptKeeps(params: map<string, string>, account: string, st: Stores, st': Stores)
    requires SettledIn(params, st) && Harmless(account, st) && AttemptStep(params, account, st, st')
    ensures st'.has == st.has && SettledIn(params, st') && Harmless(account, st')
  {
    hide Usable; hide Keys; hide Desired;
    var asked := AskedIn(params, st.secret);
    if st' != st {
      if minted :| st' == st.(late := st'.late) && OneMoreLate(st.late, st'.late, account, asked, st.has, minted) {
        var w := st'.late[|st.late|];
        PicksTheOnly(asked, st.has, minted, w.credentials[0]);
        assert w.credentials == st.has;
        forall x | x in st'.late && x.name == account ensures x.credentials == st.has {
          assert st'.late == st.late + [w];
        }
      } else {
        var minted :| GrantStep(params, st, st', minted);
        PicksTheOnly(asked, st.has, minted, st'.has[0]);
        assert st'.has == st.has;
      }
    }
  }

  lemma LandingKeeps(params: map<string, string>, account: string, st: Stores, st': Stores, i: nat)
    requires SettledIn(params, st) && Harmless(account, st) && LandStep(account, st, st', i)
    ensures st' == st
  {
    assert st.late[i] in st.late;
  }

  /** From a settled state with only harmless writes under way, every continuation keeps the
      credential and stays so. */
  lemma {:induction false} SettledForGood(params: map<string, string>, account: string, run: seq<Stores>, k: nat)
    requires Continuation(params, account, run) && k < |run| && SettledIn(params, run[0]) && Harmless(account, run[0])
    ensures run[k].has == run[0].has && SettledIn(params, run[k]) && Harmless(account, run[k])
  {
    hide SettledIn; hide Harmless; hide AttemptStep; hide LandStep;
    if k > 0 {
      SettledForGood(params, account, run, k - 1);
      assert Moves(params, account, run[k - 1], run[k]);
      if AttemptStep(params, account, run[k - 1], run[k]) {
        AttemptKeeps(params, account, run[k - 1], run[k]);
      } else {
        var i :| LandStep(account, run[k - 1], run[k], i);
        LandingKeeps(params, account, run[k - 1], run[k], i);
      }
    }
  }

  /** A Secret, once there, stays as it is. */
  lemma {:induction false} SecretStays(params: map<string, string>, account: string, run: seq<Stores>, k: nat)
    requires Continuation(params, account, run) && k < |run| && run[0].secret.Some?
    ensures run[k].secret == run[0].secret
  {
    if k > 0 {
      SecretStays(params, account, run, k - 1);
      assert Moves(params, account, run[k - 1], run[k]);
    }
  }

  /** Settled stores with a Secret agree. */
  lemma SettledAgree(params: map<string, string>, st: Stores)
    requires SettledIn(params, st) && st.secret.Some?
    ensures AgreeIn(st)
  {
  }

  /** Agreement lasts through every continuation exactly when no write still under way carries
      another credential. */
  lemma AgreementLastsIff(params: map<string, string>, account: string, st: Stores)
    requires AgreeIn(st) && Keys(st.secret.value).Some?
    ensures Harmless(account, st) <==>
            forall run :: Continuation(params, account, run) && run[0] == st ==> AgreeIn(run[|run| - 1])
  {
    hide Moves; hide Usable;
    if Harmless(account, st) {
      assert SettledIn(params, st) by { AgreedIsSettled(params, st); }
      forall run | Continuation(params, account, run) && run[0] == st ensures AgreeIn(run[|run| - 1]) {
        SettledForGood(params, account, run, |run| - 1);
        SecretStays(params, account, run, |run| - 1);
        SettledAgree(params, run[|run| - 1]);
      }
    } else {
      var w :| w in st.late && w.name == account && w.credentials != st.has;
      var i :| 0 <= i < |st.late| && st.late[i] == w;
      var after := st.(has := w.credentials);
      LandIsMove(params, account, st, after, i);
      assert Continuation(params, account, [st, after]);
      assert !AgreeIn([st, after][1]);
    }
  }

  lemma AgreedIsSettled(params: map<string, string>, st: Stores)
    requires AgreeIn(st) && Keys(st.secret.value).Some?
    ensures SettledIn(params, st)
  {
  }

  lemma LandIsMove(params: map<string, string>, account: string, st: Stores, st': Stores, i: nat)
    requires LandStep(account, st, st', i)
    ensures Moves(params, account, st, st')
  {
  }

  /** Before the first grant nothing of the account is under way, or nothing but the supplied keys;
      from it on the stores are settled with nothing harmful under way. */
  ghost predicate SafeAt(params: map<string, string>, account: string, kept: Option<Credential>, st: Stores) {
    if kept.Some? then st.has == [kept.value] && SettledIn(params, st) && Harmless(account, st)
    else Supplied(params, account, st) || NoneLate(account, st)
  }

  lemma SafeAtFirst(params: map<string, string>, account: string, st: Stores)
    ensures Supplied(params, account, st) || NoneLate(account, st) ==> SafeAt(params, account, None, st)
  {
  }

  lemma SafeMeans(params: map<string, string>, account: string, kept: Option<Credential>, st: Stores)
    ensures SafeAt(params, account, kept, st) && kept.Some? ==> st.has == [kept.value] && SettledIn(params, st) && Harmless(account, st)
  {
  }

  lemma StillNone(account: string, st: Stores, st': Stores)
    requires st'.late == st.late && NoneLate(account, st)
    ensures NoneLate(account, st')
  {
  }

  lemma AttemptIsMove(params: map<string, string>, account: string, st: Stores, st': Stores)
    requires AttemptStep(params, account, st, st')
    ensures Moves(params, account, st, st')
  {
  }

  lemma StayIsMove(params: map<string, string>, account: string, st: Stores)
    ensures Moves(params, account, st, st)
  {
  }

  lemma NoneLands(account: string, st: Stores, st': Stores, i: nat)
    requires NoneLate(account, st) && LandStep(account, st, st', i)
    ensures st' == st
  {
    assert st.late[i] in st.late;
  }

  lemma ContinuationMore(params: map<string, string>, account: string, run: seq<Stores>, st: Stores)
    requires Continuation(params, account, run) && Moves(params, account, run[|run| - 1], st)
    ensures Continuation(params, account, run + [st])
  {
    hide Moves;
    var more := run + [st];
    forall k | 0 <= k < |more| - 1 ensures Moves(params, account, more[k], more[k + 1]) {
      if k < |run| - 1 { assert more[k] == run[k] && more[k + 1] == run[k + 1]; }
    }
  }

  /** What a caller can see to beforehand, first: keys supplied by the class or the Secret stay
      the only ones under way, and every grant settles on them. */
  lemma SuppliedKeeps(params: map<string, string>, account: string, st: Stores, st': Stores)
    requires Supplied(params, account, st) && Moves(params, account, st, st')
    ensures Supplied(params, account, st') && AskedIn(params, st'.secret) == AskedIn(params, st.secret)
    ensures st'.has == st.has || st'.has == [AskedIn(params, st.secret).value]
  {
    hide Usable; hide Desired;
    var asked := AskedIn(params, st.secret);
    if i: nat :| LandStep(account, st, st', i) {
      assert st.late[i] in st.late;
    } else if st' != st {
      if minted :| st' == st.(late := st'.late) && OneMoreLate(st.late, st'.late, account, asked, st.has, minted) {
        var w := st'.late[|st.late|];
        assert w.credentials == [asked.value];
        assert st'.late == st.late + [w];
      } else {
        var minted :| GrantStep(params, st, st', minted);
        assert st'.has == [asked.value];
      }
    }
  }

  /** Second: if no write is under way when the first grant takes effect, the stores are settled
      with nothing harmful under way. */
  lemma FirstGrantSettles(params: map<string, string>, account: string, st: Stores, st': Stores, minted: Credential)
    requires GrantStep(params, st, st', minted) && (NoneLate(account, st) || Supplied(params, account, st))
    ensures SettledIn(params, st') && Harmless(account, st')
  {
    if Supplied(params, account, st) { assert st'.has == [AskedIn(params, st.secret).value]; }
  }

  /** The stored objects of one BucketAccess, and its sidecar. */
  class Access {
    const driver: Driver
    const account: string
    const bucket: string
    const params: map<string, string>
    var secret: Option<Info>
    var bucketFinalizer: bool
    var accessFinalizer: bool
    var grantedTo: Option<string>

    constructor (driver: Driver, account: string, bucket: string, params: map<string, string>, secret: Option<Info>)
      ensures this.driver == driver && this.account == account && this.bucket == bucket && this.params == params && this.secret == secret
      ensures !bucketFinalizer && !accessFinalizer && grantedTo == None
    {
      this.driver, this.account, this.bucket, this.params, this.secret := driver, account, bucket, params, secret;
      bucketFinalizer, accessFinalizer, grantedTo := false, false, None;
    }

    ghost function Now(): Stores
      reads this, driver
    {
      Stores(driver.Credentials(account), driver.late, secret)
    }

    /** The identity has one credential and every grant would settle on it again. */
    ghost predicate Settled()
      reads this, driver
    {
      SettledIn(params, Now())
    }

    /** Secret and identity hold the same credential. */
    ghost predicate Agree()
      reads this, driver
    {
      account in driver.identities && AgreeIn(Now())
    }

    /** The Secret written for a first grant. */
    function FirstInfo(c: Credential): Info {
      S3(if driver.endpoint == "" then "https://s3.amazonaws.com" else driver.endpoint,
         if driver.region == "" then "us-west-1" else driver.region, c)
    }

    /** What a grant needs besides its calls going through. */
    ghost predicate Grantable(secret: Option<Info>) {
      && account != "" && bucket != "" && KnownPolicy(Get(params, "accessPolicy"))
      && !(secret.Some? && secret.value.Unreadable?)
    }

    /** `markBucketAccessGranted`: any of its updates may fail. */
    method MarkGranted(id: string, t: Try) returns (r: Attempt)
      modifies this`bucketFinalizer, this`accessFinalizer, this`grantedTo
      ensures AllAnswered(t) && id != "" ==> r == Done
      ensures r == Done ==> id != "" && bucketFinalizer && accessFinalizer && grantedTo == Some(id)
      ensures grantedTo != old(grantedTo) ==> grantedTo == Some(id) && bucketFinalizer && accessFinalizer
      ensures (old(bucketFinalizer) ==> bucketFinalizer) && (old(accessFinalizer) ==> accessFinalizer)
    {
      if id == "" { return Retry; }
      if !bucketFinalizer {
        if t.bucket != Unsent { bucketFinalizer := true; }
        if t.bucket != Answered { return Retry; }
      }
      if !accessFinalizer {
        if t.access != Unsent { accessFinalizer := true; }
        if t.access != Answered { return Retry; }
      }
      if grantedTo == Some(id) { return Done; }
      if t.status != Unsent { grantedTo := Some(id); }
      return if t.status == Answered then Done else Retry;
    }

    /** One attempt of `Add`, from the look-up of the Secret on. */
    method Add(minted: Credential, t: Try) returns (r: Attempt, ghost chosen: Option<Credential>)
      requires driver.Keyed() && Usable(minted)
      modifies this, driver
      ensures driver.Keyed() && driver.identities - {account} == old(driver.identities) - {account}
      ensures chosen.Some? <==> TakesEffect(t) && Grantable(old(secret))
      ensures chosen.None? ==> r == Retry && driver.identities == old(driver.identities) && secret == old(secret)
      ensures chosen.Some? ==> Settled() && driver.Credentials(account) == [chosen.value]
      ensures chosen.Some? && old(Settled()) ==> driver.Credentials(account) == old(driver.Credentials(account))
      ensures chosen.Some? ==> Picks(old(Asked()), old(driver.Credentials(account)), minted, chosen.value) && driver.late == old(driver.late)
      ensures if Lingers(t) && Grantable(old(secret))
              then OneMoreLate(old(driver.late), driver.late, account, old(Asked()), old(driver.Credentials(account)), minted)
                   && Allows(Get(params, "accessPolicy"), bucket, old(driver.Allowed(account)), driver.late[|driver.late| - 1].actions)
              else driver.late == old(driver.late)
      ensures chosen.Some? ==> Allows(Get(params, "accessPolicy"), bucket, old(driver.Allowed(account)), driver.Allowed(account))
      ensures old(secret).Some? ==> secret == old(secret)
      ensures old(secret).None? && secret.Some? ==> chosen.Some? && secret.value == FirstInfo(chosen.value)
      ensures AllAnswered(t) ==> (r == Done <==> Grantable(old(secret)))
      ensures (old(bucketFinalizer) ==> bucketFinalizer) && (old(accessFinalizer) ==> accessFinalizer) && (grantedTo == old(grantedTo) || grantedTo == Some(account))
      ensures r == Done ==> chosen.Some? && Agree() && bucketFinalizer && accessFinalizer && grantedTo == Some(account)
    {
      hide KnownPolicy; hide Allows; hide Desired; hide Usable; hide Picks; hide OneMoreLate;
      chosen := None;
      if t.look != Answered { return Retry, chosen; }
      var asked := Ok(params);
      if secret.Some? {
        asked := WithExisting(params, secret.value);
        if asked.Refuse? { return Retry, chosen; }
      }
      PolicyApart();
      var reply;
      reply, chosen := GrantWith(asked.value, minted, t);
      if reply.Rejected? || reply.account == "" { return Retry, chosen; }
      if secret.None? {
        var info := S3(if reply.endpoint == "" then "https://s3.amazonaws.com" else reply.endpoint,
                       if reply.region == "" then "us-west-1" else reply.region, reply.credential);
        if t.create != Unsent { secret := Some(info); }
        if t.create != Answered { return Retry, chosen; }
      }
      r := MarkGranted(reply.account, t);
    }

    /** The credential a request asks for. */
    function Asked(): Option<Credential>
      reads this
    {
      AskedIn(params, secret)
    }

    /** The driver call of an attempt, with the parameters it ends up with. */
    method GrantWith(ps: map<string, string>, minted: Credential, t: Try) returns (reply: Reply, ghost chosen: Option<Credential>)
      requires driver.Keyed() && Usable(minted) && t.look == Answered
      requires Desired(ps) == Asked() && Get(ps, "accessPolicy") == Get(params, "accessPolicy")
      modifies driver
      ensures driver.Keyed() && driver.identities - {account} == old(driver.identities) - {account}
      ensures chosen.Some? <==> TakesEffect(t) && account != "" && bucket != "" && KnownPolicy(Get(params, "accessPolicy"))
      ensures chosen.None? ==> reply.Rejected? && driver.identities == old(driver.identities)
      ensures chosen.Some? ==> Settled() && driver.Credentials(account) == [chosen.value]
      ensures chosen.Some? && old(Settled()) ==> driver.Credentials(account) == old(driver.Credentials(account))
      ensures chosen.Some? ==> Picks(Asked(), old(driver.Credentials(account)), minted, chosen.value) && driver.late == old(driver.late)
      ensures if Lingers(t) && account != "" && bucket != "" && KnownPolicy(Get(params, "accessPolicy"))
              then OneMoreLate(old(driver.late), driver.late, account, Asked(), old(driver.Credentials(account)), minted)
                   && Allows(Get(params, "accessPolicy"), bucket, old(driver.Allowed(account)), driver.late[|driver.late| - 1].actions)
              else driver.late == old(driver.late)
      ensures chosen.Some? ==> Allows(Get(params, "accessPolicy"), bucket, old(driver.Allowed(account)), driver.Allowed(account))
      ensures reply.Granted? ==> account != "" && reply == Granted(account, reply.credential, driver.endpoint, driver.region) && chosen == Some(reply.credential)
      ensures AllAnswered(t) ==> (reply.Granted? <==> account != "" && bucket != "" && KnownPolicy(Get(params, "accessPolicy")))
    {
      hide KnownPolicy; hide Allows; hide Desired;
      reply, chosen := driver.Grant(account, bucket, ps, minted, t);
    }

    /** An attempt, as a step of the stores. */
    method AttemptOnce(minted: Credential, t: Try) returns (r: Attempt, ghost chosen: Option<Credential>)
      requires driver.Keyed() && Usable(minted)
      modifies this, driver
      ensures driver.Keyed() && driver.identities - {account} == old(driver.identities) - {account}
      ensures AttemptStep(params, account, old(Now()), Now())
      ensures chosen.Some? <==> TakesEffect(t) && Grantable(old(secret))
      ensures chosen.Some? ==> GrantStep(params, old(Now()), Now(), minted) && driver.Credentials(account) == [chosen.value]
      ensures chosen.None? ==> r == Retry && driver.identities == old(driver.identities) && secret == old(secret)
      ensures !(Lingers(t) && Grantable(old(secret))) ==> driver.late == old(driver.late)
      ensures (old(secret).Some? ==> secret == old(secret)) && (account in old(driver.identities) ==> account in driver.identities)
      ensures Grantable(old(secret)) <==> Grantable(secret)
      ensures AllAnswered(t) ==> (r == Done <==> Grantable(old(secret)))
      ensures (old(bucketFinalizer) ==> bucketFinalizer) && (old(accessFinalizer) ==> accessFinalizer) && (grantedTo == old(grantedTo) || grantedTo == Some(account))
      ensures r == Done ==> chosen.Some? && secret.Some? && account in driver.identities && bucketFinalizer && accessFinalizer && grantedTo == Some(account)
    {
      hide NoDuplicates; hide Desired; hide Usable; hide KnownPolicy; hide Allows; hide Picks; hide OneMoreLate;
      ghost var st := Now();
      r, chosen := Add(minted, t);
      if chosen.None? && Lingers(t) && Grantable(st.secret) {
        assert Now() == st.(late := Now().late) && OneMoreLate(st.late, Now().late, account, AskedIn(params, st.secret), st.has, minted);
      }
      if chosen.Some? { assert GrantStep(params, st, Now(), minted); }
    }

    /** A failed write lands after all. */
    method LandLate(i: nat)
      requires driver.Keyed()
      modifies driver
      ensures driver.Keyed() && driver.late == old(driver.late)
      ensures if i < |driver.late| then LandStep(account, old(Now()), Now(), i) else driver.identities == old(driver.identities)
      ensures account in old(driver.identities) ==> account in driver.identities
    {
      if i < |driver.late| { driver.Land(i); }
    }

    /** One turn of a run. A write may be left under way only if the run is safe anyway or a grant
        has taken effect. */
    method TakeTurn(turn: Turn, ghost kept0: Option<Credential>, ghost safe: bool) returns (d: bool, ghost kept: Option<Credential>)
      requires driver.Keyed() && (turn.Attempts? ==> Usable(turn.minted))
      requires safe ==> SafeAt(params, account, kept0, Now())
      requires safe && kept0.None? && turn.Attempts? && Lingers(turn.t) && Grantable(secret) ==> Supplied(params, account, Now())
      modifies this, driver
      ensures driver.Keyed() && Moves(params, account, old(Now()), Now())
      ensures (Grantable(old(secret)) <==> Grantable(secret)) && (old(secret).Some? ==> secret.Some?) && (account in old(driver.identities) ==> account in driver.identities)
      ensures (old(bucketFinalizer) ==> bucketFinalizer) && (old(accessFinalizer) ==> accessFinalizer) && (grantedTo == old(grantedTo) || grantedTo == Some(account))
      ensures d ==> kept.Some? && secret.Some? && account in driver.identities && bucketFinalizer && accessFinalizer && grantedTo == Some(account)
      ensures turn.Attempts? && AllAnswered(turn.t) && Grantable(old(secret)) ==> d
      ensures safe ==> SafeAt(params, account, kept, Now())
      ensures old(Supplied(params, account, Now())) ==> Supplied(params, account, Now())
      ensures kept0.Some? ==> kept.Some?
      ensures kept.None? ==> kept0.None? && (turn.Attempts? ==> !(TakesEffect(turn.t) && Grantable(old(secret))))
    {
      hide Moves; hide AttemptStep; hide LandStep; hide SettledIn; hide Harmless; hide Supplied; hide NoneLate; hide GrantStep; hide Usable; hide KnownPolicy;
      ghost var st := Now();
      kept := kept0;
      match turn {
        case Attempts(minted, t) =>
          var r, chosen := AttemptOnce(minted, t);
          d := r == Done;
          AttemptIsMove(params, account, st, Now());
          if safe {
            if kept.Some? { AttemptKeeps(params, account, st, Now()); }
            else if chosen.Some? { FirstGrantSettles(params, account, st, Now(), minted); }
            else if Supplied(params, account, st) { SuppliedKeeps(params, account, st, Now()); }
            else { StillNone(account, st, Now()); }
          }
          if kept.None? { kept := chosen; }
          if Supplied(params, account, st) { SuppliedKeeps(params, account, st, Now()); }
        case Landing(index) =>
          d := false;
          LandLate(index);
          if index < |driver.late| { LandIsMove(params, account, st, Now(), index); } else { StayIsMove(params, account, st); }
          if safe && index < |driver.late| {
            if kept.Some? { LandingKeeps(params, account, st, Now(), index); }
            else if Supplied(params, account, st) { SuppliedKeeps(params, account, st, Now()); }
            else { NoneLands(account, st, Now(), index); }
          }
          if Supplied(params, account, st) && index < |driver.late| { SuppliedKeeps(params, account, st, Now()); }
      }
    }

    /** Any mix of attempts and late landings. It is a continuation of the stores. If the class or
        the Secret supplies the keys, or the stores are settled with nothing harmful under way, or
        no write is under way and none fails before the first grant takes effect, then the identity
        keeps the first credential granted and agrees with the Secret once an attempt completes.
        One attempt in which no call fails completes the grant. */
    method Turns(n: nat, turns: nat -> Turn) returns (done: bool, ghost kept: Option<Credential>, ghost run: seq<Stores>)
      requires driver.Keyed() && forall i :: turns(i).Attempts? ==> Usable(turns(i).minted)
      modifies this, driver
      ensures driver.Keyed() && Continuation(params, account, run) && run[0] == old(Now()) && run[|run| - 1] == Now()
      ensures done ==> secret.Some? && account in driver.identities && grantedTo == Some(account) && bucketFinalizer && accessFinalizer
      ensures Grantable(old(secret)) && (exists i :: 0 <= i < n && turns(i).Attempts? && AllAnswered(turns(i).t)) ==> done
      ensures kept.None? ==> !done
      ensures old(SettledIn(params, Now()) && Harmless(account, Now())) ==>
                Now().has == old(Now().has) && SettledIn(params, Now()) && Harmless(account, Now()) && (done ==> Agree())
      ensures (old(Supplied(params, account, Now())) || (old(NoneLate(account, Now())) && FailsLate(turns, n))) ==>
                (kept.Some? ==> Now().has == [kept.value] && SettledIn(params, Now()) && Harmless(account, Now())) && (done ==> Agree())
    {
      hide Moves; hide SettledIn; hide Harmless; hide Supplied; hide NoneLate; hide Usable; hide KnownPolicy; hide SafeAt; hide Lingers; hide TakesEffect;
      done, kept, run := false, None, [Now()];
      ghost var safe := Supplied(params, account, Now()) || (NoneLate(account, Now()) && FailsLate(turns, n));
      SafeAtFirst(params, account, Now());
      for i := 0 to n
        invariant driver.Keyed() && Continuation(params, account, run) && run[0] == old(Now()) && run[|run| - 1] == Now()
        invariant done ==> kept.Some? && secret.Some? && account in driver.identities && grantedTo == Some(account) && bucketFinalizer && accessFinalizer
        invariant Grantable(old(secret)) <==> Grantable(secret)
        invariant Grantable(old(secret)) && (exists j :: 0 <= j < i && turns(j).Attempts? && AllAnswered(turns(j).t)) ==> done
        invariant safe ==> SafeAt(params, account, kept, Now())
        invariant Supplied(params, account, run[0]) ==> Supplied(params, account, Now())
        invariant kept.None? ==> forall j :: 0 <= j < i && turns(j).Attempts? ==> !(TakesEffect(turns(j).t) && Grantable(old(secret)))
      {
        assert safe && !Supplied(params, account, run[0]) && turns(i).Attempts? && Lingers(turns(i).t) ==>
            exists j :: 0 <= j < i && turns(j).Attempts? && TakesEffect(turns(j).t);
        var d;
        d, kept := TakeTurn(turns(i), kept, safe);
        ContinuationMore(params, account, run, Now());
        run := run + [Now()];
        done := done || d;
      }
      if old(SettledIn(params, Now()) && Harmless(account, Now())) { SettledForGood(params, account, run, |run| - 1); }
      SafeMeans(params, account, kept, Now());
      if done && SettledIn(params, Now()) { SettledAgree(params, Now()); }
    }

    /** Any number of attempts, however each ends: from the first grant that takes effect the
        identity has one credential and keeps it, the actions only grow and never repeat, and
        once an attempt completes the Secret and the identity agree. One attempt in which no call
        fails completes the grant. All of this without landings; `Turns` is
        about runs with them. */
    method Attempts(n: nat, mint: nat -> Credential, tries: nat -> Try) returns (done: bool, ghost kept: Option<Credential>, ghost grants: seq<Credential>)
      requires driver.Keyed() && forall i :: Usable(mint(i))
      modifies this, driver
      ensures driver.Keyed() && driver.identities - {account} == old(driver.identities) - {account}
      ensures kept.None? ==> !done && driver.identities == old(driver.identities) && secret == old(secret)
      ensures kept.Some? ==> Settled() && driver.Credentials(account) == [kept.value]
      ensures old(Settled()) ==> driver.Credentials(account) == old(driver.Credentials(account))
      ensures forall j :: 0 <= j < |grants| ==> Some(grants[j]) == kept
      ensures kept.Some? ==> Allows(Get(params, "accessPolicy"), bucket, old(driver.Allowed(account)), driver.Allowed(account))
      ensures old(driver.Allowed(account)) <= driver.Allowed(account)
      ensures old(NoDuplicates(driver.Allowed(account))) ==> NoDuplicates(driver.Allowed(account))
      ensures done ==> Agree() && grantedTo == Some(account) && bucketFinalizer && accessFinalizer
      ensures Grantable(old(secret)) && (exists i :: 0 <= i < n && AllAnswered(tries(i))) ==> done
    {
      hide NoDuplicates; hide Lingers; hide TakesEffect; hide AllAnswered; hide Keys; hide Desired; hide Usable; hide SettledOn; hide KnownPolicy; hide Allows; hide Picks; hide OneMoreLate;
      done, kept, grants := false, None, [];
      for i := 0 to n
        invariant driver.Keyed() && driver.identities - {account} == old(driver.identities) - {account}
        invariant kept.None? ==> !done && driver.identities == old(driver.identities) && secret == old(secret)
        invariant kept.Some? ==> Settled() && driver.Credentials(account) == [kept.value] && (forall j :: 0 <= j < |grants| ==> grants[j] == kept.value)
        invariant old(Settled()) ==> Settled() && driver.Credentials(account) == old(driver.Credentials(account))
        invariant kept.None? ==> grants == []
        invariant kept.Some? ==> Allows(Get(params, "accessPolicy"), bucket, old(driver.Allowed(account)), driver.Allowed(account))
        invariant old(driver.Allowed(account)) <= driver.Allowed(account)
        invariant old(NoDuplicates(driver.Allowed(account))) ==> NoDuplicates(driver.Allowed(account))
        invariant Grantable(old(secret)) ==> Grantable(secret) && ((exists j :: 0 <= j < i && AllAnswered(tries(j))) ==> done)
        invariant done ==> Agree() && grantedTo == Some(account) && bucketFinalizer && accessFinalizer
      {
        ghost var allowed := driver.Allowed(account);
        var r, chosen := Add(mint(i), tries(i));
        if chosen.Some? {
          if kept.Some? { AllowsTwice(Get(params, "accessPolicy"), bucket, old(driver.Allowed(account)), allowed, driver.Allowed(account)); }
          AllowsMore(Get(params, "accessPolicy"), bucket, old(driver.Allowed(account)), driver.Allowed(account));
          if done { SettledAgree(params, Now()); }
          kept, grants := chosen, grants + [chosen.value];
        }
        done := done || r == Done;
      }
    }

    lemma PolicyApart()
      ensures "accessPolicy" != ACCESS_KEY && "accessPolicy" != SECRET_KEY
    {
      assert |"accessPolicy"| == 12 && |ACCESS_KEY| == 29 && |SECRET_KEY| == 33;
    }
  }

  const ANSWERED := Try(Answered, Answered, Answered, false, Answered, Answered, Answered, Answered, Answered)

  /** The first attempt's write lingers, the second mints another credential and completes, the
      first write lands and splits the two stores, and one more attempt brings them together. */
  method LateWriteSplits() returns (access: Access, ghost split: bool, ghost healed: bool)
    ensures fresh(access) && fresh(access.driver) && split && healed
  {
    var first, second := Credential("first", "key"), Credential("second", "key");
    var driver := new Driver("", "");
    access := new Access(driver, "user", "bucket", map[], None);
    hide Allows;
    var r, chosen := access.Add(first, ANSWERED.(save := Unsent, lingers := true));
    assert |driver.late| == 1 && driver.late[0].name == "user" && driver.late[0].credentials == [first];
    r, chosen := access.Add(second, ANSWERED);
    assert r == Done && chosen == Some(second) && Keys(access.secret.value) == Some(second);
    access.LandLate(0);
    split := !access.Agree();
    r, chosen := access.Add(first, ANSWERED);
    healed := r == Done && access.Agree();
  }
}
