/** The backup publisher's directory work on the recovery mount: stage, rename, prune. It may be
    stopped after any change it makes. */
module NasExport {
  import opened PathOrder
  import opened Pods

  datatype Shelf = Exports | Archives

  /** SHA-256 is taken as injective, so a checksum line is its subject and the name on it. */
  datatype Content = Data(bytes: string) | Checksum(of: string, name: string) | Admission(observed: int)

  datatype File = File(private: bool, content: Content)

  datatype Dir = Dir(plain: bool, private: bool, files: map<string, File>)

  type Dirs = map<string, Dir>

  datatype Completion = Completion(stamp: int, name: string)

  datatype Ending = Finished | Failed | Stopped

  /** How each of a row of steps ends; nothing follows one that does not finish. */
  type Steps = nat -> Ending

  const SUFFIX := "_gitlab_backup.tar"

  predicate Digits(s: string) {
    s != "" && forall i :: 0 <= i < |s| ==> '0' <= s[i] <= '9'
  }

  function Number(s: string): int {
    if s == "" then 0 else 10 * Number(s[..|s| - 1]) + (s[|s| - 1] as int - '0' as int)
  }

  predicate Version(s: string) {
    exists i, j | 0 < i < j < |s| :: s[i] == '.' && s[j] == '.' && Digits(s[..i]) && Digits(s[i + 1..j]) && Digits(s[j + 1..])
  }

  /** `NAME` without its suffix: ten digits, a date and a version. */
  predicate ExportName(n: string) {
    && |n| > 22 && Digits(n[..10]) && n[10] == '_' && Digits(n[11..15]) && n[15] == '_'
    && Digits(n[16..18]) && n[18] == '_' && Digits(n[19..21]) && n[21] == '_' && Version(n[22..])
  }

  predicate ArchiveName(n: string) {
    && |n| == 22 && n[..10] == "admission."
    && forall i :: 10 <= i < 22 ==> 'a' <= n[i] <= 'z' || 'A' <= n[i] <= 'Z' || '0' <= n[i] <= '9'
  }

  /** The paths the publisher takes for its own completions. */
  predicate Owned(shelf: Shelf, n: string, d: Dir) {
    match shelf
    case Exports => ExportName(n) && d.plain
    case Archives => ArchiveName(n)
  }

  function Stamp(shelf: Shelf, n: string, d: Dir): int {
    match shelf
    case Exports => if |n| >= 10 then Number(n[..10]) else 0
    case Archives => if "admission.txt" in d.files && d.files["admission.txt"].content.Admission? then d.files["admission.txt"].content.observed else 0
  }

  function Contents(shelf: Shelf, n: string): set<string> {
    match shelf
    case Exports => {n + SUFFIX, "archive.sha256", "backup_information.yml"}
    case Archives => {"database.dump", "database.sha256", "archive.list", "admission.txt"}
  }

  /** A completion with exactly its files, private throughout, whose checksum reads back. */
  predicate Good(shelf: Shelf, n: string, d: Dir) {
    && d.plain && d.private && d.files.Keys == Contents(shelf, n) && (forall f <- d.files :: d.files[f].private)
    && match shelf
       case Exports => Attested(d.files, n + SUFFIX, "archive.sha256")
       case Archives =>
         && Attested(d.files, "database.dump", "database.sha256") && NonEmpty(d.files, "database.dump") && NonEmpty(d.files, "archive.list")
         && "admission.txt" in d.files && d.files["admission.txt"].content.Admission?
  }

  predicate Attested(files: map<string, File>, data: string, sum: string) {
    && data in files && sum in files && files[data].content.Data?
    && files[sum].content == Checksum(files[data].content.bytes, data)
  }

  predicate NonEmpty(files: map<string, File>, data: string) {
    data in files && files[data].content.Data? && files[data].content.bytes != ""
  }

  /** Every path taken for a completion is a good one: what a run demands before it changes
      anything. */
  ghost predicate Sound(shelf: Shelf, dirs: Dirs) {
    forall n :: n in dirs && Owned(shelf, n, dirs[n]) ==> Good(shelf, n, dirs[n])
  }

  predicate Older(a: Completion, b: Completion) {
    a.stamp < b.stamp || (a.stamp == b.stamp && NameLt(a.name, b.name))
  }

  ghost predicate ByAge(cs: seq<Completion>) {
    forall i, j :: 0 <= i < j < |cs| ==> Older(cs[i], cs[j])
  }

  ghost predicate Named(cs: seq<Completion>, n: string) {
    exists i :: 0 <= i < |cs| && cs[i].name == n
  }

  /** `cs` is the completions among `seen`, oldest first. */
  ghost predicate Lists(shelf: Shelf, dirs: Dirs, cs: seq<Completion>, seen: set<string>) {
    && ByAge(cs)
    && (forall c :: c in cs ==> c.name in seen && c.name in dirs && Owned(shelf, c.name, dirs[c.name]) && c.stamp == Stamp(shelf, c.name, dirs[c.name]))
    && (forall n :: n in seen && n in dirs && Owned(shelf, n, dirs[n]) ==> Named(cs, n))
  }

  // ------------------------------------------------------------------- what the scan takes

  ghost predicate Numeric(s: string) {
    s != "" && forall x :: x in s ==> '0' <= x <= '9'
  }

  lemma DigitsIff(s: string)
    ensures Digits(s) <==> Numeric(s)
  {
    if Numeric(s) {
      forall i | 0 <= i < |s| ensures '0' <= s[i] <= '9' { assert s[i] in s; }
    }
  }

  ghost predicate Dotted(v: string, a: string, b: string, c: string) {
    v == a + "." + b + "." + c && Numeric(a) && Numeric(b) && Numeric(c)
  }

  lemma VersionIff(v: string)
    ensures Version(v) <==> exists a, b, c :: Dotted(v, a, b, c)
  {
    hide Digits; hide Dotted;
    if Version(v) {
      var i, j :| 0 < i < j < |v| && v[i] == '.' && v[j] == '.' && Digits(v[..i]) && Digits(v[i + 1..j]) && Digits(v[j + 1..]);
      VersionIsDotted(v, i, j);
    }
    forall a, b, c | Dotted(v, a, b, c) ensures Version(v) { DottedIsVersion(v, a, b, c); }
  }

  lemma VersionIsDotted(v: string, i: nat, j: nat)
    requires 0 < i < j < |v| && v[i] == '.' && v[j] == '.' && Digits(v[..i]) && Digits(v[i + 1..j]) && Digits(v[j + 1..])
    ensures Dotted(v, v[..i], v[i + 1..j], v[j + 1..])
  {
    DigitsIff(v[..i]);
    DigitsIff(v[i + 1..j]);
    DigitsIff(v[j + 1..]);
    hide Digits; hide Numeric;
    assert v == v[..i] + "." + v[i + 1..j] + "." + v[j + 1..];
  }

  lemma DottedIsVersion(v: string, a: string, b: string, c: string)
    requires Dotted(v, a, b, c)
    ensures Version(v)
  {
    DigitsIff(a);
    DigitsIff(b);
    DigitsIff(c);
    assert |a| > 0 && |b| > 0;
    hide Digits; hide Numeric;
    var i, j := |a|, |a| + 1 + |b|;
    assert v[..i] == a && v[i + 1..j] == b && v[j + 1..] == c && v[i] == '.' && v[j] == '.';
  }

  /** The name of a published archive before `_gitlab_backup.tar`: ten digits, a date and a
      version. */
  ghost predicate Spells(n: string, t: string, year: string, month: string, day: string, v: string) {
    && n == t + "_" + year + "_" + month + "_" + day + "_" + v
    && |t| == 10 && |year| == 4 && |month| == 2 && |day| == 2
    && Numeric(t) && Numeric(year) && Numeric(month) && Numeric(day) && exists a, b, c :: Dotted(v, a, b, c)
  }

  lemma SpelledIsExport(n: string, t: string, year: string, month: string, day: string, v: string)
    requires Spells(n, t, year, month, day, v)
    ensures ExportName(n)
  {
    VersionIff(v);
    DigitsIff(t);
    DigitsIff(year);
    DigitsIff(month);
    DigitsIff(day);
    assert v != "";
    hide Digits; hide Numeric; hide Version; hide Dotted;
    assert n[..10] == t && n[11..15] == year && n[16..18] == month && n[19..21] == day && n[22..] == v;
  }

  /** The positional check takes exactly the names of that pattern. */
  lemma ExportNameIff(n: string)
    ensures ExportName(n) <==> exists t, year, month, day, v :: Spells(n, t, year, month, day, v)
  {
    hide Digits; hide Numeric; hide Version; hide Dotted;
    if ExportName(n) {
      var t, year, month, day, v := n[..10], n[11..15], n[16..18], n[19..21], n[22..];
      VersionIff(v);
      DigitsIff(t);
      DigitsIff(year);
      DigitsIff(month);
      DigitsIff(day);
      assert n == t + "_" + year + "_" + month + "_" + day + "_" + v;
      assert Spells(n, t, year, month, day, v);
    }
    forall t, year, month, day, v | Spells(n, t, year, month, day, v) ensures ExportName(n) {
      SpelledIsExport(n, t, year, month, day, v);
    }
  }

  /** Private throughout, exactly the three files, and the checksum of the archive under its own
      name. */
  ghost predicate WholeExport(n: string, d: Dir) {
    && d.plain && d.private && (forall f <- d.files :: d.files[f].private)
    && d.files.Keys == {n + "_gitlab_backup.tar", "archive.sha256", "backup_information.yml"}
    && d.files[n + "_gitlab_backup.tar"].content.Data?
    && d.files["archive.sha256"].content == Checksum(d.files[n + "_gitlab_backup.tar"].content.bytes, n + "_gitlab_backup.tar")
  }

  /** Private throughout, exactly the four files, the checksum of the dump, and neither the dump
      nor its listing empty. */
  ghost predicate WholeArchive(d: Dir) {
    && d.plain && d.private && (forall f <- d.files :: d.files[f].private)
    && d.files.Keys == {"database.dump", "database.sha256", "archive.list", "admission.txt"}
    && d.files["database.dump"].content.Data? && d.files["database.dump"].content.bytes != ""
    && d.files["database.sha256"].content == Checksum(d.files["database.dump"].content.bytes, "database.dump")
    && d.files["archive.list"].content.Data? && d.files["archive.list"].content.bytes != "" && d.files["admission.txt"].content.Admission?
  }

  ghost predicate Alphanumeric(s: string) {
    forall x :: x in s ==> 'a' <= x <= 'z' || 'A' <= x <= 'Z' || '0' <= x <= '9'
  }

  /** Export names that are directories hold a whole export; archive names, a whole archive. */
  ghost predicate AllWhole(shelf: Shelf, dirs: Dirs) {
    match shelf
    case Exports => forall n :: n in dirs && ExportName(n) && dirs[n].plain ==> WholeExport(n, dirs[n])
    case Archives =>
      forall n :: n in dirs && |n| == 22 && n[..10] == "admission." && Alphanumeric(n[10..]) ==> WholeArchive(dirs[n])
  }

  lemma ArchiveNameIff(n: string)
    ensures ArchiveName(n) <==> |n| == 22 && n[..10] == "admission." && Alphanumeric(n[10..])
  {
    if |n| == 22 && Alphanumeric(n[10..]) {
      forall i | 10 <= i < 22 ensures 'a' <= n[i] <= 'z' || 'A' <= n[i] <= 'Z' || '0' <= n[i] <= '9' { assert n[i] in n[10..]; }
    }
  }

  lemma GoodExportIff(n: string, d: Dir)
    ensures Good(Exports, n, d) <==> WholeExport(n, d)
  {
  }

  lemma GoodArchiveIff(n: string, d: Dir)
    ensures Good(Archives, n, d) <==> WholeArchive(d)
  {
    assert d.files.Keys == Contents(Archives, n) ==> "archive.list" in d.files && "database.dump" in d.files;
  }

  lemma SoundIff(shelf: Shelf, dirs: Dirs)
    ensures Sound(shelf, dirs) <==> AllWhole(shelf, dirs)
  {
    hide Good; hide WholeExport; hide WholeArchive; hide ExportName;
    forall n | n in dirs
      ensures Good(Exports, n, dirs[n]) <==> WholeExport(n, dirs[n])
      ensures Good(Archives, n, dirs[n]) <==> WholeArchive(dirs[n])
    {
      GoodExportIff(n, dirs[n]);
      GoodArchiveIff(n, dirs[n]);
    }
    forall n ensures ArchiveName(n) <==> |n| == 22 && n[..10] == "admission." && Alphanumeric(n[10..]) { ArchiveNameIff(n); }
  }

  // ----------------------------------------------------------------------------------- age

  lemma LastDecides(a: string, b: string)
    requires |a| == |b| > 0
    ensures var n := |a| - 1; NameLess(a, b) <==> NameLess(a[..n], b[..n]) || (a[..n] == b[..n] && a[n] < b[n])
  {
    var n := |a| - 1;
    var x, y := a[..n], b[..n];
    if NameLess(x, y) { Lengthened(a, b, n); }
    if x == y && a[n] < b[n] { assert NameBefore(a, b, n); }
    if NameLess(a, b) {
      var k: nat :| NameBefore(a, b, k);
      if k < n {
        assert x[..k] == a[..k] && y[..k] == b[..k];
        assert NameBefore(x, y, k);
      }
    }
  }

  /** Of two equally long rows of digits the smaller number comes first by name. */
  lemma {:induction false} NumberOrder(a: string, b: string)
    requires |a| == |b| && (a != "" ==> Digits(a) && Digits(b))
    ensures Number(a) < Number(b) <==> NameLess(a, b)
    ensures Number(a) == Number(b) <==> a == b
  {
    if a != "" {
      var n := |a| - 1;
      var x, y := a[..n], b[..n];
      NumberOrder(x, y);
      assert a == x + [a[n]] && b == y + [b[n]];
      LastDecides(a, b);
      hide NameLess; hide Digits;
    }
  }

  lemma NameOrderByPart(a: string, b: string, k: nat)
    requires k <= |a| && k <= |b|
    ensures NameLess(a[..k], b[..k]) ==> NameLess(a, b)
    ensures NameLess(a, b) ==> !NameLess(b[..k], a[..k])
  {
    var x, y := a[..k], b[..k];
    if NameLess(x, y) { Lengthened(a, b, k); }
    if NameLess(y, x) {
      Lengthened(b, a, k);
      if NameLess(a, b) {
        NameTransitive(a, b, a);
        NameIrreflexive(a);
      }
    }
  }

  lemma Lengthened(a: string, b: string, k: nat)
    requires k <= |a| && k <= |b| && NameLess(a[..k], b[..k])
    ensures NameLess(a, b)
  {
    var x, y := a[..k], b[..k];
    var m: nat :| NameBefore(x, y, m);
    assert a[..m] == x[..m] && b[..m] == y[..m];
    assert NameBefore(a, b, m);
  }

  /** Completion `a` of the shelf is older than `b`: an export by its ten digits and then by the
      rest of its name, an archive by the time it was observed and then by name. */
  ghost predicate Earlier(shelf: Shelf, dirs: Dirs, a: string, b: string) {
    match shelf
    case Exports => |a| > 22 && |b| > 22 && !NameLess(b[..10], a[..10]) && NameLess(a, b)
    case Archives =>
      && a in dirs && b in dirs && "admission.txt" in dirs[a].files && "admission.txt" in dirs[b].files
      && dirs[a].files["admission.txt"].content.Admission? && dirs[b].files["admission.txt"].content.Admission?
      && var x, y := dirs[a].files["admission.txt"].content.observed, dirs[b].files["admission.txt"].content.observed;
         x < y || (x == y && NameLess(a, b))
  }

  lemma OlderIsEarlier(shelf: Shelf, dirs: Dirs, a: string, b: string)
    requires Sound(shelf, dirs) && a in dirs && b in dirs && Owned(shelf, a, dirs[a]) && Owned(shelf, b, dirs[b])
    requires Older(Completion(Stamp(shelf, a, dirs[a]), a), Completion(Stamp(shelf, b, dirs[b]), b))
    ensures Earlier(shelf, dirs, a, b)
  {
    match shelf {
      case Exports =>
        NumberOrder(a[..10], b[..10]);
        NameOrderByPart(a, b, 10);
      case Archives =>
        GoodArchiveIff(a, dirs[a]);
        GoodArchiveIff(b, dirs[b]);
        hide Good;
    }
  }

  lemma ListedByAge(shelf: Shelf, dirs: Dirs, cs: seq<Completion>)
    requires Sound(shelf, dirs) && Lists(shelf, dirs, cs, dirs.Keys)
    ensures forall i, j :: 0 <= i < j < |cs| ==> Earlier(shelf, dirs, cs[i].name, cs[j].name)
  {
    hide Sound; hide Owned; hide Stamp; hide Earlier; hide Older;
    forall i, j | 0 <= i < j < |cs| ensures Earlier(shelf, dirs, cs[i].name, cs[j].name) {
      assert cs[i] in cs && cs[j] in cs;
      assert cs[i] == Completion(Stamp(shelf, cs[i].name, dirs[cs[i].name]), cs[i].name);
      assert cs[j] == Completion(Stamp(shelf, cs[j].name, dirs[cs[j].name]), cs[j].name);
      OlderIsEarlier(shelf, dirs, cs[i].name, cs[j].name);
    }
  }

  lemma OlderFacts(a: Completion, b: Completion, c: Completion)
    ensures Older(a, b) && Older(b, c) ==> Older(a, c)
    ensures a.name != b.name ==> Older(a, b) || Older(b, a)
    ensures !Older(a, a)
  {
    if NameLess(a.name, b.name) && NameLess(b.name, c.name) { NameTransitive(a.name, b.name, c.name); }
    if a.name != b.name { NameTotal(a.name, b.name); }
    NameIrreflexive(a.name);
  }

  method InsertByAge(cs: seq<Completion>, c: Completion) returns (out: seq<Completion>)
    requires ByAge(cs) && !Named(cs, c.name)
    ensures ByAge(out) && |out| == |cs| + 1 && forall d :: d in out <==> d in cs || d == c
  {
    hide Older; hide Named;
    NotNamed(cs, c);
    var k := 0;
    while k < |cs| && Older(cs[k], c)
      invariant 0 <= k <= |cs| && forall i :: 0 <= i < k ==> Older(cs[i], c)
    {
      k := k + 1;
    }
    if k < |cs| {
      OlderFacts(c, cs[k], c);
      forall i | k < i < |cs| ensures Older(c, cs[i]) { OlderFacts(c, cs[k], cs[i]); }
    }
    InsertedByAge(cs, k, c);
    out := cs[..k] + [c] + cs[k..];
  }

  lemma NotNamed(cs: seq<Completion>, c: Completion)
    requires !Named(cs, c.name)
    ensures forall i :: 0 <= i < |cs| ==> cs[i].name != c.name
  {
  }

  lemma InsertedByAge(cs: seq<Completion>, k: nat, c: Completion)
    requires ByAge(cs) && k <= |cs|
    requires (forall i :: 0 <= i < k ==> Older(cs[i], c)) && forall i :: k <= i < |cs| ==> Older(c, cs[i])
    ensures ByAge(cs[..k] + [c] + cs[k..])
    ensures forall d :: d in cs[..k] + [c] + cs[k..] <==> d in cs || d == c
  {
    hide Older;
    assert cs == cs[..k] + cs[k..];
  }

  /** `completed` and `completed_db_archives`: refuse on the first bad completion, whatever the
      listing order. */
  method Completed(shelf: Shelf, dirs: Dirs) returns (r: Result<seq<Completion>>)
    ensures r.Ok? <==> Sound(shelf, dirs)
    ensures r.Ok? <==> AllWhole(shelf, dirs)
    ensures r.Ok? ==> Lists(shelf, dirs, r.value, dirs.Keys)
    ensures r.Ok? ==> forall i, j :: 0 <= i < j < |r.value| ==> Earlier(shelf, dirs, r.value[i].name, r.value[j].name)
  {
    SoundIff(shelf, dirs);
    hide Owned; hide Good; hide ByAge; hide AllWhole; hide Earlier;
    var cs: seq<Completion> := [];
    var rest := dirs.Keys;
    assert ByAge([]) by { EmptyByAge(); }
    while rest != {}
      invariant rest <= dirs.Keys && Lists(shelf, dirs, cs, dirs.Keys - rest)
      invariant forall n :: n in dirs && n !in rest && Owned(shelf, n, dirs[n]) ==> Good(shelf, n, dirs[n])
      decreases rest
    {
      var n :| n in rest;
      if Owned(shelf, n, dirs[n]) {
        if !Good(shelf, n, dirs[n]) { return Refuse; }
        var c := Completion(Stamp(shelf, n, dirs[n]), n);
        var more := InsertByAge(cs, c);
        NamedMore(cs, c, more);
        cs := more;
      }
      rest := rest - {n};
    }
    assert dirs.Keys - {} == dirs.Keys;
    ListedByAge(shelf, dirs, cs);
    return Ok(cs);
  }

  lemma EmptyByAge()
    ensures ByAge([])
  {
  }

  lemma NamedMore(cs: seq<Completion>, c: Completion, out: seq<Completion>)
    requires forall d :: d in out <==> d in cs || d == c
    ensures forall n :: Named(out, n) <==> Named(cs, n) || n == c.name
  {
    forall n ensures Named(out, n) <==> Named(cs, n) || n == c.name {
      if Named(cs, n) {
        var i :| 0 <= i < |cs| && cs[i].name == n;
        assert cs[i] in out;
        var j :| 0 <= j < |out| && out[j] == cs[i];
      }
      if n == c.name {
        assert c in out;
        var j :| 0 <= j < |out| && out[j] == c;
      }
      if Named(out, n) {
        var j :| 0 <= j < |out| && out[j].name == n;
        assert out[j] in out;
        if out[j] != c {
          var i :| 0 <= i < |cs| && cs[i] == out[j];
        }
      }
    }
  }

  // ----------------------------------------------------------------------------- pruning

  function Surplus(cs: seq<Completion>, keep: nat): nat {
    if |cs| <= keep then 0 else |cs| - keep
  }

  /** `completions[:-keep]`. */
  function Doomed(cs: seq<Completion>, keep: nat): (r: seq<string>)
    ensures |r| == Surplus(cs, keep) && forall i :: 0 <= i < |r| ==> r[i] == cs[i].name
  {
    seq(Surplus(cs, keep), i requires 0 <= i < Surplus(cs, keep) => cs[i].name)
  }

  function Newest(cs: seq<Completion>, keep: nat): seq<Completion> {
    cs[Surplus(cs, keep)..]
  }

  ghost predicate Distinct(ns: seq<string>) {
    forall i, j :: 0 <= i < j < |ns| ==> ns[i] != ns[j]
  }

  /** `ns[..done]` are removed and `ns[done]`, if there is one, has lost the files `lost`. */
  ghost function Pruned(dirs: Dirs, ns: seq<string>, done: nat, lost: set<string>): Dirs
    requires done <= |ns|
  {
    var rest := dirs - (set i | 0 <= i < done :: ns[i]);
    if done < |ns| && ns[done] in rest then rest[ns[done] := Without(rest[ns[done]], lost)] else rest
  }

  function Without(d: Dir, lost: set<string>): Dir {
    d.(files := d.files - lost)
  }

  class Store {
    var dirs: Dirs

    constructor (dirs: Dirs)
      ensures this.dirs == dirs
    {
      this.dirs := dirs;
    }

    method Unlink(n: string, f: string, ghost was: Dirs, ghost lost: set<string>)
      requires n in was && dirs == was[n := Without(was[n], lost)]
      modifies this
      ensures dirs == was[n := Without(was[n], lost + {f})]
    {
      hide Without;
      LoseOne(was[n], lost, f);
      dirs := dirs[n := Without(dirs[n], {f})];
    }

    /** One directory of `prune_owned`: its files one by one, in any order, then itself. */
    method RemoveDir(n: string, steps: Steps) returns (e: Ending, ghost lost: set<string>)
      requires n in dirs
      modifies this
      ensures e == Finished ==> dirs == old(dirs) - {n}
      ensures e != Finished ==> lost <= old(dirs)[n].files.Keys && dirs == old(dirs)[n := Without(old(dirs)[n], lost)]
      ensures e == Finished <==> forall i :: 0 <= i <= |old(dirs)[n].files| ==> steps(i) == Finished
      ensures e != Finished ==> steps(|lost|) == e && forall i :: 0 <= i < |lost| ==> steps(i) == Finished
    {
      hide Without;
      lost := {};
      var rest, i := dirs[n].files.Keys, 0;
      LoseNone(dirs[n]);
      ghost var total := dirs[n].files.Keys;
      while rest != {}
        invariant rest <= total && lost == total - rest && i == |lost| && i + |rest| == |total|
        invariant dirs == old(dirs)[n := Without(old(dirs)[n], lost)]
        invariant forall j :: 0 <= j < i ==> steps(j) == Finished
        decreases rest
      {
        if steps(i) != Finished { return steps(i), lost; }
        var f :| f in rest;
        OneFewer(total, rest, lost, f);
        Unlink(n, f, old(dirs), lost);
        rest, lost, i := rest - {f}, lost + {f}, i + 1;
      }
      assert i == |total|;
      e := steps(i);
      if e == Finished { dirs := dirs - {n}; }
    }

    /** `prune_owned`. */
    method Prune(ns: seq<string>, steps: nat -> Steps) returns (e: Ending, ghost done: nat, ghost lost: set<string>)
      requires Distinct(ns) && forall n :: n in ns ==> n in dirs
      modifies this
      ensures done <= |ns| && dirs == Pruned(old(dirs), ns, done, lost)
      ensures e == Finished <==> done == |ns|
      ensures done < |ns| ==>
                && ns[done] in old(dirs) && lost <= old(dirs)[ns[done]].files.Keys
                && steps(done)(|lost|) == e && forall i :: 0 <= i < |lost| ==> steps(done)(i) == Finished
      ensures forall i :: 0 <= i < done ==> ns[i] in old(dirs) && forall j :: 0 <= j <= |old(dirs)[ns[i]].files| ==> steps(i)(j) == Finished
    {
      done, lost := 0, {};
      for i := 0 to |ns|
        invariant dirs == old(dirs) - (set j | 0 <= j < i :: ns[j])
        invariant forall k :: 0 <= k < i ==> ns[k] in old(dirs) && forall j :: 0 <= j <= |old(dirs)[ns[k]].files| ==> steps(k)(j) == Finished
      {
        done := i;
        assert ns[i] in ns;
        e, lost := RemoveDir(ns[i], steps(i));
        if e != Finished { return; }
        assert dirs == old(dirs) - (set j | 0 <= j < i + 1 :: ns[j]);
      }
      done := |ns|;
      e := Finished;
    }
  }

  /** Stopped after the first file of the oldest directory. */
  const MIDWAY: nat -> Steps := i => j => if i == 0 && j == 1 then Stopped else Finished

  /** From every sound shelf with more completions than are kept there is a stop that no later
      run gets past. */
  method StopMidway(shelf: Shelf, store: Store, cs: seq<Completion>, keep: nat) returns (next: Result<seq<Completion>>)
    requires Sound(shelf, store.dirs) && Lists(shelf, store.dirs, cs, store.dirs.Keys) && |cs| > keep
    modifies store
    ensures !Sound(shelf, store.dirs) && next.Refuse?
    ensures Spared(shelf, old(store.dirs), cs, keep, store.dirs)
  {
    hide Sound; hide Lists; hide Pruned; hide Spared;
    ghost var was := store.dirs;
    NamesDistinct(cs, shelf, was, keep);
    HasFiles(shelf, was, cs, keep);
    assert MIDWAY(0)(0) == Finished && MIDWAY(0)(1) == Stopped;
    var e, done, lost := store.Prune(Doomed(cs, keep), MIDWAY);
    assert done == 0 && |lost| == 1;
    PruningSoundIff(shelf, was, cs, keep, done, lost);
    SparedBy(shelf, was, cs, keep, done, lost);
    next := Completed(shelf, store.dirs);
  }

  lemma HasFiles(shelf: Shelf, dirs: Dirs, cs: seq<Completion>, keep: nat)
    requires Sound(shelf, dirs) && Lists(shelf, dirs, cs, dirs.Keys) && |cs| > keep
    ensures Doomed(cs, keep)[0] in dirs && |dirs[Doomed(cs, keep)[0]].files| > 0
  {
    hide Stamp; hide Attested; hide NonEmpty;
    var c := cs[0];
    assert c in cs && Good(shelf, c.name, dirs[c.name]);
    assert "archive.sha256" in Contents(Exports, c.name) && "archive.list" in Contents(Archives, c.name);
    var files := dirs[c.name].files;
    assert exists f :: f in files.Keys;
  }

  lemma LoseNone(d: Dir)
    ensures Without(d, {}) == d && |d.files| == |d.files.Keys|
  {
  }

  lemma OneFewer(total: set<string>, rest: set<string>, lost: set<string>, f: string)
    requires rest <= total && lost == total - rest && f in rest
    ensures lost + {f} == total - (rest - {f}) && |lost + {f}| == |lost| + 1 && |rest - {f}| == |rest| - 1
  {
  }

  lemma LoseOne(d: Dir, lost: set<string>, f: string)
    ensures Without(Without(d, lost), {f}) == Without(d, lost + {f})
  {
    assert d.files - lost - {f} == d.files - (lost + {f});
  }

  lemma NamesDistinct(cs: seq<Completion>, shelf: Shelf, dirs: Dirs, keep: nat)
    requires Lists(shelf, dirs, cs, dirs.Keys)
    ensures forall i, j :: 0 <= i < j < |cs| ==> cs[i].name != cs[j].name
    ensures Distinct(Doomed(cs, keep)) && forall n :: n in Doomed(cs, keep) ==> n in dirs
  {
    hide Owned; hide Stamp;
    forall i, j | 0 <= i < j < |cs| ensures cs[i].name != cs[j].name {
      assert cs[i] in cs && cs[j] in cs && Older(cs[i], cs[j]);
      OlderFacts(cs[i], cs[j], cs[j]);
    }
    forall n | n in Doomed(cs, keep) ensures n in dirs {
      var i :| 0 <= i < |Doomed(cs, keep)| && Doomed(cs, keep)[i] == n;
      assert cs[i] in cs;
    }
  }

  /** However far pruning gets: paths that are no completion, and the `keep` newest
      completions, are as they were. */
  lemma PruningSpares(shelf: Shelf, dirs: Dirs, cs: seq<Completion>, keep: nat, done: nat, lost: set<string>, n: string)
    requires Lists(shelf, dirs, cs, dirs.Keys) && done <= |Doomed(cs, keep)| && n in dirs
    requires Owned(shelf, n, dirs[n]) ==> Named(Newest(cs, keep), n)
    ensures var after := Pruned(dirs, Doomed(cs, keep), done, lost); n in after && after[n] == dirs[n]
  {
    hide Owned; hide Stamp;
    NamesDistinct(cs, shelf, dirs, keep);
    forall i | 0 <= i < |Doomed(cs, keep)| ensures Doomed(cs, keep)[i] != n {
      assert cs[i] in cs;
      if Named(Newest(cs, keep), n) {
        var j :| 0 <= j < |Newest(cs, keep)| && Newest(cs, keep)[j].name == n;
        assert cs[Surplus(cs, keep) + j].name == n;
      }
    }
  }

  /** What is gone is older than every completion that is left. */
  ghost predicate OldestGone(shelf: Shelf, was: Dirs, now: Dirs) {
    forall a, b :: a in was && a !in now && b in was && b in now && Owned(shelf, b, was[b]) ==> Earlier(shelf, was, a, b)
  }

  lemma OldestGo(shelf: Shelf, dirs: Dirs, cs: seq<Completion>, keep: nat, done: nat, lost: set<string>)
    requires Sound(shelf, dirs) && Lists(shelf, dirs, cs, dirs.Keys) && done <= |Doomed(cs, keep)|
    ensures OldestGone(shelf, dirs, Pruned(dirs, Doomed(cs, keep), done, lost))
  {
    ListedByAge(shelf, dirs, cs);
    hide Sound; hide Owned; hide Stamp; hide Earlier; hide ByAge; hide Without;
    var ns := Doomed(cs, keep);
    var after := Pruned(dirs, ns, done, lost);
    forall a, b | a in dirs && a !in after && b in dirs && b in after && Owned(shelf, b, dirs[b]) ensures Earlier(shelf, dirs, a, b) {
      var i :| 0 <= i < done && ns[i] == a;
      assert Named(cs, b);
      var j :| 0 <= j < |cs| && cs[j].name == b;
      assert cs[i].name == a && forall t :: 0 <= t < done ==> ns[t] == cs[t].name && ns[t] !in after;
    }
  }

  lemma NoneYounger(dirs: Dirs, cs: seq<Completion>, t: nat, j: nat)
    requires Lists(Exports, dirs, cs, dirs.Keys) && t < |cs| && j < |cs|
    requires forall x, y :: 0 <= x < y < |cs| ==> Earlier(Exports, dirs, cs[x].name, cs[y].name)
    requires forall n :: n in dirs && n != cs[t].name && ExportName(n) && dirs[n].plain ==> NameLess(n[..10], cs[t].name[..10])
    requires forall x, y :: 0 <= x < y < |cs| ==> cs[x].name != cs[y].name
    ensures j <= t
  {
    hide ExportName; hide ByAge; hide Stamp; hide Named; hide NameLess;
    assert cs[j] in cs && cs[t] in cs;
    assert Owned(Exports, cs[j].name, dirs[cs[j].name]);
  }

  /** A completion younger than every other is kept. */
  lemma YoungestIsKept(dirs: Dirs, cs: seq<Completion>, keep: nat, target: string)
    requires Sound(Exports, dirs) && Lists(Exports, dirs, cs, dirs.Keys) && keep > 0
    requires target in dirs && Owned(Exports, target, dirs[target])
    requires forall n :: n in dirs && n != target && ExportName(n) && dirs[n].plain ==> NameLess(n[..10], target[..10])
    ensures Named(Newest(cs, keep), target)
  {
    ListedByAge(Exports, dirs, cs);
    NamesDistinct(cs, Exports, dirs, keep);
    assert Named(cs, target);
    hide Sound; hide Stamp; hide ByAge; hide ExportName; hide Lists; hide Earlier; hide Owned;
    var t: nat :| t < |cs| && cs[t].name == target;
    NoneYounger(dirs, cs, t, |cs| - 1);
    assert Newest(cs, keep)[t - Surplus(cs, keep)].name == target;
  }

  /** Finished pruning leaves exactly the `keep` newest completions. */
  lemma PruningLeavesNewest(shelf: Shelf, dirs: Dirs, cs: seq<Completion>, keep: nat, lost: set<string>)
    requires Lists(shelf, dirs, cs, dirs.Keys)
    ensures Sound(shelf, dirs) ==> OldestGone(shelf, dirs, Pruned(dirs, Doomed(cs, keep), |Doomed(cs, keep)|, lost))
    ensures var after := Pruned(dirs, Doomed(cs, keep), |Doomed(cs, keep)|, lost); Lists(shelf, after, Newest(cs, keep), after.Keys)
    ensures |Newest(cs, keep)| == if |cs| < keep then |cs| else keep
  {
    var after := Pruned(dirs, Doomed(cs, keep), |Doomed(cs, keep)|, lost);
    hide Sound; hide OldestGone;
    if Sound(shelf, dirs) { OldestGo(shelf, dirs, cs, keep, |Doomed(cs, keep)|, lost); }
    NewestStay(shelf, dirs, cs, keep, lost);
    forall n | n in after && Owned(shelf, n, after[n]) ensures Named(Newest(cs, keep), n) {
      SurvivorIsNew(shelf, dirs, cs, keep, lost, n);
    }
    assert ByAge(Newest(cs, keep)) by { LaterByAge(cs, Surplus(cs, keep)); }
    hide Owned; hide Stamp; hide Pruned; hide ByAge; hide Named; hide Newest;
    assert Lists(shelf, after, Newest(cs, keep), after.Keys);
  }

  lemma LaterByAge(cs: seq<Completion>, m: nat)
    requires ByAge(cs) && m <= |cs|
    ensures ByAge(cs[m..])
  {
  }

  lemma NewestStay(shelf: Shelf, dirs: Dirs, cs: seq<Completion>, keep: nat, lost: set<string>)
    requires Lists(shelf, dirs, cs, dirs.Keys)
    ensures var after := Pruned(dirs, Doomed(cs, keep), |Doomed(cs, keep)|, lost);
            forall c :: c in Newest(cs, keep) ==> c in cs && c.name in after && after[c.name] == dirs[c.name]
  {
    hide Owned; hide Stamp; hide ByAge; hide Pruned; hide Doomed;
    var m := Surplus(cs, keep);
    forall c | c in Newest(cs, keep)
      ensures c in cs && c.name in Pruned(dirs, Doomed(cs, keep), |Doomed(cs, keep)|, lost)
      ensures Pruned(dirs, Doomed(cs, keep), |Doomed(cs, keep)|, lost)[c.name] == dirs[c.name]
    {
      var j :| 0 <= j < |cs[m..]| && cs[m..][j] == c;
      assert cs[m + j] == c;
      assert Newest(cs, keep)[j].name == c.name;
      assert c in cs;
      PruningSpares(shelf, dirs, cs, keep, |Doomed(cs, keep)|, lost, c.name);
    }
  }

  lemma SurvivorIsNew(shelf: Shelf, dirs: Dirs, cs: seq<Completion>, keep: nat, lost: set<string>, n: string)
    requires Lists(shelf, dirs, cs, dirs.Keys) && n in dirs && Owned(shelf, n, dirs[n])
    requires n in Pruned(dirs, Doomed(cs, keep), |Doomed(cs, keep)|, lost)
    ensures Named(Newest(cs, keep), n)
  {
    hide Owned; hide Stamp; hide ByAge;
    var ns, m := Doomed(cs, keep), Surplus(cs, keep);
    assert Named(cs, n);
    var i :| 0 <= i < |cs| && cs[i].name == n;
    assert forall t :: 0 <= t < m ==> ns[t] !in Pruned(dirs, ns, |ns|, lost);
    assert cs[m..][i - m].name == n;
  }

  /** A run stopped among the files of one directory leaves that directory bad, and with it the
      whole shelf: no later run gets past its scan. A run stopped anywhere else leaves the shelf
      sound. */
  lemma PruningSoundIff(shelf: Shelf, dirs: Dirs, cs: seq<Completion>, keep: nat, done: nat, lost: set<string>)
    requires Sound(shelf, dirs) && Lists(shelf, dirs, cs, dirs.Keys) && done <= |Doomed(cs, keep)|
    requires done < |Doomed(cs, keep)| ==> Doomed(cs, keep)[done] in dirs && lost <= dirs[Doomed(cs, keep)[done]].files.Keys
    ensures Sound(shelf, Pruned(dirs, Doomed(cs, keep), done, lost)) <==> done == |Doomed(cs, keep)| || lost == {}
  {
    hide Stamp; hide Contents; hide Attested; hide NonEmpty;
    NamesDistinct(cs, shelf, dirs, keep);
    var ns := Doomed(cs, keep);
    var after := Pruned(dirs, ns, done, lost);
    if done < |ns| {
      var n := ns[done];
      assert cs[done] in cs && Owned(shelf, n, dirs[n]);
      assert n in after && after[n] == Without(dirs[n], lost);
      if lost == {} {
        assert after[n] == dirs[n];
      } else {
        var f :| f in lost;
        assert f in Contents(shelf, n) && f !in after[n].files.Keys;
        assert Owned(shelf, n, after[n]) && !Good(shelf, n, after[n]);
      }
    }
  }

  // -------------------------------------------------------------------------- publishing

  function NewExport(target: string, data: string, info: string): Dir {
    Dir(true, true, map[target + SUFFIX := File(true, Data(data)), "backup_information.yml" := File(true, Data(info)),
                        "archive.sha256" := File(true, Checksum(data, target + SUFFIX))])
  }

  lemma NewExportIsGood(target: string, data: string, info: string)
    requires ExportName(target)
    ensures Owned(Exports, target, NewExport(target, data, info)) && Good(Exports, target, NewExport(target, data, info))
  {
    hide Version; hide Digits;
    assert |target + SUFFIX| > 22;
  }

  /** A staging directory, whatever is in it, is nobody's completion. */
  lemma StageIsUnknown(target: string, salt: string, d: Dir)
    ensures !Owned(Exports, StageName(target, salt), d)
  {
    var n := StageName(target, salt);
    if |n| >= 10 { assert n[..10][0] == '.'; }
  }

  function StageName(target: string, salt: string): (n: string)
    ensures n != target
  {
    var n := "." + target + "." + salt + ".partial";
    assert |n| > |target|;
    n
  }

  /** Build the staging directory and rename it into place. Until the rename nothing but the
      stage differs; a failure removes the stage, a stop may leave it. */
  method Build(exports: Store, target: string, data: string, info: string, salt: string, calm: bool, cleanup: Steps) returns (e: Ending, published: bool)
    requires target !in exports.dirs
    modifies exports
    ensures (e == Finished ==> published) && (published ==> StageName(target, salt) !in old(exports.dirs))
    ensures calm && StageName(target, salt) !in old(exports.dirs) ==> e == Finished
    ensures published ==> exports.dirs == old(exports.dirs)[target := NewExport(target, data, info)]
    ensures !published ==> OnlyStage(old(exports.dirs), exports.dirs, StageName(target, salt))
  {
    hide NewExport; hide StageName;
    var stage := StageName(target, salt);
    if stage in exports.dirs { return Failed, false; }
    ghost var was := exports.dirs;
    e := Fill(exports, stage, target, data, info, calm);
    Aside(was, exports.dirs, stage);
    if e == Finished {
      exports.dirs := (exports.dirs - {stage})[target := exports.dirs[stage]];
      e := Step(calm);
      return e, true;
    }
    if e == Failed {
      var cleared, lost := exports.RemoveDir(stage, cleanup);
      if stage in exports.dirs { Aside(was, exports.dirs, stage); }
      e := if cleared == Stopped then Stopped else Failed;
    }
    return e, false;
  }

  lemma Aside(was: Dirs, now: Dirs, stage: string)
    requires stage !in was && stage in now && now == was[stage := now[stage]]
    ensures now - {stage} == was
  {
  }

  /** The staged files, each synchronised and checked before the next. */
  method Fill(exports: Store, stage: string, target: string, data: string, info: string, calm: bool) returns (e: Ending)
    modifies exports
    ensures calm ==> e == Finished
    ensures stage in exports.dirs && exports.dirs == old(exports.dirs)[stage := exports.dirs[stage]]
    ensures e == Finished ==> exports.dirs[stage] == NewExport(target, data, info)
  {
    var copied: string := *;
    var private: bool := *;
    if calm { copied, private := data, true; }
    var dir := Dir(true, true, map[]);
    e := Step(calm);
    if e == Finished {
      dir := dir.(files := dir.files[target + SUFFIX := File(private, Data(copied))]);
      e := Step(calm);
    }
    if e == Finished && (!private || copied != data) { e := Failed; }
    if e == Finished {
      dir := dir.(files := dir.files["backup_information.yml" := File(true, Data(info))]);
      e := Step(calm);
    }
    if e == Finished {
      dir := dir.(files := dir.files["archive.sha256" := File(true, Checksum(data, target + SUFFIX))]);
      e := Step(calm);
    }
    // Wherever it ended, this is what the stage holds.
    exports.dirs := exports.dirs[stage := dir];
  }

  /** Checks and synchronisation between two changes: they may fail, and the process may stop. */
  method Step(calm: bool) returns (e: Ending)
    ensures calm ==> e == Finished
  {
    e := *;
    if calm { e := Finished; }
  }

  ghost predicate OnlyStage(was: Dirs, now: Dirs, stage: string) {
    now == was || (stage !in was && now - {stage} == was)
  }

  /** `main`, after the native backup has produced and inspected the archive. */
  method Publish(exports: Store, archives: Store, target: string, data: string, info: string, salt: string, calm: bool, cleanup: Steps, exportSteps: nat -> Steps, archiveSteps: nat -> Steps)
    returns (e: Ending, ghost published: bool, ghost earlier: seq<Completion>, ghost cs: seq<Completion>, ghost db: seq<Completion>, ghost torn: bool)
    requires exports != archives && ExportName(target)
    modifies exports, archives
    // Unpublished: every earlier export and every archive is as it was.
    ensures !published ==> archives.dirs == old(archives.dirs) && OnlyStage(old(exports.dirs), exports.dirs, StageName(target, salt))
    // Published: what is neither a completion nor pruned is as it was, the newest seven of
    // old and new and the newest fourteen archives are intact.
    ensures published ==>
              && Sound(Exports, old(exports.dirs)) && Sound(Archives, old(archives.dirs)) && target !in old(exports.dirs)
              && var with := old(exports.dirs)[target := NewExport(target, data, info)];
                 && Lists(Exports, old(exports.dirs), earlier, old(exports.dirs).Keys) && |cs| == |earlier| + 1
                 && Lists(Exports, with, cs, with.Keys) && Spared(Exports, with, cs, 7, exports.dirs)
                 && Lists(Archives, old(archives.dirs), db, old(archives.dirs).Keys) && Spared(Archives, old(archives.dirs), db, 14, archives.dirs)
    // Whatever is gone is older than every completion that is left, and the export just
    // published is left if its time exceeds that of every earlier one.
    ensures published ==>
              && OldestGone(Exports, old(exports.dirs)[target := NewExport(target, data, info)], exports.dirs)
              && OldestGone(Archives, old(archives.dirs), archives.dirs)
    ensures published && (forall n :: n in old(exports.dirs) && ExportName(n) && old(exports.dirs)[n].plain ==> NameLess(n[..10], target[..10])) ==>
              target in exports.dirs && exports.dirs[target] == NewExport(target, data, info)
    // Success: exactly those are left.
    ensures e == Finished ==>
              && published && !torn
              && |Newest(cs, 7)| == (if |earlier| < 7 then |earlier| + 1 else 7) && |Newest(db, 14)| == (if |db| < 14 then |db| else 14)
              && Lists(Exports, exports.dirs, Newest(cs, 7), exports.dirs.Keys) && Lists(Archives, archives.dirs, Newest(db, 14), archives.dirs.Keys)
    // When nothing fails it succeeds exactly if both shelves are sound and the names are free.
    ensures calm && (forall i, j :: exportSteps(i)(j) == Finished && archiveSteps(i)(j) == Finished) ==>
              (e == Finished <==> Sound(Exports, old(exports.dirs)) && Sound(Archives, old(archives.dirs))
                                  && target !in old(exports.dirs) && StageName(target, salt) !in old(exports.dirs))
    // The next run's scan passes exactly when no directory was left half removed.
    ensures Sound(Exports, old(exports.dirs)) && Sound(Archives, old(archives.dirs)) ==>
              (Sound(Exports, exports.dirs) && Sound(Archives, archives.dirs) <==> !torn)
  {
    hide Sound; hide Lists; hide Spared; hide NewExport; hide ExportName; hide Pruned; hide OldestGone; hide Owned;
    published, earlier, cs, db, torn := false, [], [], [], false;
    if target in exports.dirs { return Failed, published, earlier, cs, db, torn; }
    var retained := Completed(Exports, exports.dirs);
    if retained.Refuse? { return Failed, published, earlier, cs, db, torn; }
    var admissions := Completed(Archives, archives.dirs);
    if admissions.Refuse? { return Failed, published, earlier, cs, db, torn; }
    earlier, db := retained.value, admissions.value;
    var was := exports.dirs;
    var built, there := Build(exports, target, data, info, salt, calm, cleanup);
    published := there;
    if !there {
      StageHarmless(was, exports.dirs, target, salt);
      return built, published, earlier, cs, db, torn;
    }
    ghost var with := exports.dirs;
    var all := WithNew(was, retained.value, target, data, info);
    cs := all;
    NamesDistinct(cs, Exports, with, 7);
    NamesDistinct(db, Archives, archives.dirs, 14);
    SparedAll(Archives, archives.dirs, db, 14);
    NothingGone(Archives, archives.dirs);
    NothingGone(Exports, with);
    StaysWhenYoungest(was, with, cs, target, data, info);
    if built != Finished {
      SparedAll(Exports, with, cs, 7);
      return built, published, earlier, cs, db, torn;
    }
    ghost var done, lost;
    e, done, lost := exports.Prune(Doomed(all, 7), exportSteps);
    SparedBy(Exports, with, cs, 7, done, lost);
    OldestGo(Exports, with, cs, 7, done, lost);
    torn := done < |Doomed(all, 7)| && lost != {};
    PruningSoundIff(Exports, with, cs, 7, done, lost);
    if e != Finished { return e, published, earlier, cs, db, torn; }
    PruningLeavesNewest(Exports, with, cs, 7, lost);
    e, done, lost := archives.Prune(Doomed(admissions.value, 14), archiveSteps);
    SparedBy(Archives, old(archives.dirs), db, 14, done, lost);
    OldestGo(Archives, old(archives.dirs), db, 14, done, lost);
    torn := done < |Doomed(db, 14)| && lost != {};
    PruningSoundIff(Archives, old(archives.dirs), db, 14, done, lost);
    if e != Finished { return e, published, earlier, cs, db, torn; }
    PruningLeavesNewest(Archives, old(archives.dirs), db, 14, lost);
    e := Step(calm);
  }

  /** Nothing is added; what is no completion, and the `keep` newest completions, are intact. */
  ghost predicate Spared(shelf: Shelf, was: Dirs, cs: seq<Completion>, keep: nat, now: Dirs) {
    && now.Keys <= was.Keys
    && forall n :: n in was && (Owned(shelf, n, was[n]) ==> Named(Newest(cs, keep), n)) ==> n in now && now[n] == was[n]
  }

  lemma NothingGone(shelf: Shelf, dirs: Dirs)
    ensures OldestGone(shelf, dirs, dirs)
  {
  }

  lemma StaysWhenYoungest(was: Dirs, with: Dirs, cs: seq<Completion>, target: string, data: string, info: string)
    requires with == was[target := NewExport(target, data, info)] && ExportName(target) && target !in was
    requires Sound(Exports, with) && Lists(Exports, with, cs, with.Keys)
    ensures (forall n :: n in was && ExportName(n) && was[n].plain ==> NameLess(n[..10], target[..10])) ==>
              forall now :: Spared(Exports, with, cs, 7, now) ==> target in now && now[target] == NewExport(target, data, info)
  {
    NewExportIsGood(target, data, info);
    hide Sound; hide Lists; hide NewExport; hide Good; hide Owned;
    if forall n :: n in was && ExportName(n) && was[n].plain ==> NameLess(n[..10], target[..10]) {
      forall n | n in with && n != target && ExportName(n) && with[n].plain ensures NameLess(n[..10], target[..10]) {
        assert n in was && was[n] == with[n];
      }
      YoungestIsKept(with, cs, 7, target);
    }
  }

  lemma SparedAll(shelf: Shelf, dirs: Dirs, cs: seq<Completion>, keep: nat)
    ensures Spared(shelf, dirs, cs, keep, dirs)
  {
  }

  lemma SparedBy(shelf: Shelf, dirs: Dirs, cs: seq<Completion>, keep: nat, done: nat, lost: set<string>)
    requires Lists(shelf, dirs, cs, dirs.Keys) && done <= |Doomed(cs, keep)|
    ensures Spared(shelf, dirs, cs, keep, Pruned(dirs, Doomed(cs, keep), done, lost))
  {
    hide Lists; hide Owned; hide Named;
    var after := Pruned(dirs, Doomed(cs, keep), done, lost);
    forall n | n in dirs && (Owned(shelf, n, dirs[n]) ==> Named(Newest(cs, keep), n)) ensures n in after && after[n] == dirs[n] {
      PruningSpares(shelf, dirs, cs, keep, done, lost, n);
    }
  }

  lemma StageHarmless(was: Dirs, now: Dirs, target: string, salt: string)
    requires OnlyStage(was, now, StageName(target, salt))
    ensures Sound(Exports, was) <==> Sound(Exports, now)
  {
    hide Good; hide ExportName; hide StageName;
    var stage := StageName(target, salt);
    if now != was {
      assert forall n :: n in was ==> n in now - {stage} && now[n] == was[n];
      assert forall n :: n in now && n != stage ==> n in now - {stage};
      if stage in now { StageIsUnknown(target, salt, now[stage]); }
    }
  }

  /** `sorted(retained + [(timestamp, target)])`. */
  method WithNew(was: Dirs, retained: seq<Completion>, target: string, data: string, info: string) returns (all: seq<Completion>)
    requires ExportName(target) && target !in was && Sound(Exports, was) && Lists(Exports, was, retained, was.Keys)
    ensures var with := was[target := NewExport(target, data, info)]; Sound(Exports, with) && Lists(Exports, with, all, with.Keys)
    ensures |all| == |retained| + 1
  {
    hide ExportName; hide Good;
    NewExportIsGood(target, data, info);
    var c := Completion(Stamp(Exports, target, NewExport(target, data, info)), target);
    all := InsertByAge(retained, c);
    NamedMore(retained, c, all);
  }
}
