/**
 config/loader.py: the cache of parsed project configs, keyed by the names, mtimes and
 sizes of a directory's YAML files, and the settle time that has to make up for mtimes
 that are coarser than the clock.
 */
module ConfigCache {
  import opened Wrappers

  /** A file; a write stamps it with the clock rounded down by at most `grain`. */
  datatype File = File(name: string, content: string, mtime: int)
  datatype Stamp = Stamp(name: string, mtime: int, size: nat)
  datatype Project = Project(settings: map<string, string>)

  /** What one YAML file says, None when it is rejected; the environment is fixed. */
  type Parser = string -> Option<Project>

  /** CACHE_SETTLE_SECONDS, in nanoseconds. */
  const SETTLE: int := 2_000_000_000

  // ------------------------------------------------------------ a directory listing

  /** Code point order, the order of sorted(d.iterdir()). */
  predicate Precedes(a: string, b: string) {
    b != "" && (a == "" || a[0] < b[0] || (a[0] == b[0] && Precedes(a[1..], b[1..])))
  }

  lemma {:induction false} PrecedesIsStrict(a: string, b: string, c: string)
    ensures !Precedes(a, a)
    ensures a != b ==> Precedes(a, b) || Precedes(b, a)
    ensures Precedes(a, b) && Precedes(b, c) ==> Precedes(a, c)
  {
    if a != "" {
      var b' := if b == "" then "" else b[1..];
      var c' := if c == "" then "" else c[1..];
      PrecedesIsStrict(a[1..], b', c');
      assert b != "" && a[0] == b[0] && a[1..] == b[1..] ==> a == [a[0]] + a[1..] && b == [b[0]] + b[1..];
    }
  }

  ghost predicate Sorted(d: seq<File>) {
    forall i, j | 0 <= i < j < |d| :: Precedes(d[i].name, d[j].name)
  }

  function Put(d: seq<File>, f: File): seq<File> {
    if d == [] then [f]
    else if d[0].name == f.name then [f] + d[1..]
    else if Precedes(f.name, d[0].name) then [f] + d
    else [d[0]] + Put(d[1..], f)
  }

  function Without(d: seq<File>, name: string): seq<File> {
    if d == [] then [] else if d[0].name == name then d[1..] else [d[0]] + Without(d[1..], name)
  }

  lemma {:induction false} PutKeeps(d: seq<File>, f: File)
    requires Sorted(d)
    ensures Sorted(Put(d, f)) && f in Put(d, f)
    ensures forall g | g in Put(d, f) :: g == f || g in d
    decreases |d|
  {
    if d != [] {
      PutKeeps(d[1..], f);
      forall g | g in d[1..] ensures Precedes(d[0].name, g.name) {
      }
      PrecedesIsStrict(f.name, d[0].name, "");
      forall g | g in d && Precedes(f.name, d[0].name) ensures Precedes(f.name, g.name) {
        PrecedesIsStrict(f.name, d[0].name, g.name);
      }
    }
  }

  lemma {:induction false} WithoutKeeps(d: seq<File>, name: string)
    requires Sorted(d)
    ensures Sorted(Without(d, name))
    ensures forall g | g in Without(d, name) :: g in d
    decreases |d|
  {
    if d != [] {
      WithoutKeeps(d[1..], name);
      forall g | g in d[1..] ensures Precedes(d[0].name, g.name) {
      }
    }
  }

  /** A name whose suffix is ".yaml" or ".yml"; a leading dot is no suffix. */
  predicate IsConfig(name: string) {
    || (|name| > 5 && name[|name| - 5..] == ".yaml")
    || (|name| > 4 && name[|name| - 4..] == ".yml")
  }

  /** The two suffixes, behind any name but the empty one, and no other file. */
  lemma ConfigNames(name: string)
    ensures IsConfig(name) <==> exists stem: string :: stem != "" && (name == stem + ".yaml" || name == stem + ".yml")
  {
    if |name| > 5 && name[|name| - 5..] == ".yaml" {
      assert name == name[..|name| - 5] + ".yaml";
    }
    if |name| > 4 && name[|name| - 4..] == ".yml" {
      assert name == name[..|name| - 4] + ".yml";
    }
  }

  function Configs(d: seq<File>): seq<File> {
    if d == [] then [] else (if IsConfig(d[0].name) then [d[0]] else []) + Configs(d[1..])
  }

  lemma {:induction false} ConfigsKeep(d: seq<File>)
    requires Sorted(d)
    ensures Sorted(Configs(d))
    ensures forall g :: g in Configs(d) <==> g in d && IsConfig(g.name)
    decreases |d|
  {
    if d != [] {
      ConfigsKeep(d[1..]);
    }
  }

  function StampOf(f: File): Stamp { Stamp(f.name, f.mtime, |f.content|) }

  /** The fingerprint of a directory. */
  function Stamps(d: seq<File>): seq<Stamp> {
    var c := Configs(d);
    seq(|c|, i requires 0 <= i < |c| => StampOf(c[i]))
  }

  function ParseAll(parse: Parser, c: seq<File>): seq<Project> {
    if c == [] then []
    else ParseAll(parse, c[..|c| - 1]) + match parse(c[|c| - 1].content) case None => [] case Some(p) => [p]
  }

  /** What the files of a directory say now. */
  function Projects(parse: Parser, d: seq<File>): seq<Project> { ParseAll(parse, Configs(d)) }

  predicate Settled(fingerprint: seq<Stamp>, now: int) {
    forall i | 0 <= i < |fingerprint| :: now - fingerprint[i].mtime > SETTLE
  }

  // ------------------------------------------------------------ files, clock and cache

  datatype Entry = Entry(fingerprint: seq<Stamp>, projects: seq<Project>)

  /** A load that has read the files and not yet decided whether to keep the result. */
  datatype Pending = Pending(directory: string, fingerprint: Option<seq<Stamp>>, projects: seq<Project>, since: int)

  datatype State = State(dirs: map<string, seq<File>>, now: int, cache: map<string, Entry>, pending: Option<Pending>)

  function Files(s: State, directory: string): seq<File> {
    if directory in s.dirs then s.dirs[directory] else []
  }

  predicate Blank(s: string) { forall i | 0 <= i < |s| :: s[i] in " \t\n\r" }

  /** The first half of a load: its answer, and whether it still has to settle. */
  function ReadStep(parse: Parser, s: State, directory: string, readable: bool): (State, seq<Project>)
    requires s.pending == None
  {
    if Blank(directory) || directory !in s.dirs then (s, [])
    else
      var fingerprint := if readable then Some(Stamps(s.dirs[directory])) else None;
      if directory in s.cache &&
        fingerprint == Some(s.cache[directory].fingerprint) then (s, s.cache[directory].projects)
      else
        var projects := Projects(parse, s.dirs[directory]);
        (s.(pending := Some(Pending(directory, fingerprint, projects, s.now))), projects)
  }

  /** The second half: keep the result if the newest file has settled, else forget the directory. */
  function SettleStep(s: State): State
    requires s.pending.Some?
  {
    var p := s.pending.value;
    if p.fingerprint.Some? && Settled(p.fingerprint.value, s.now) then
      s.(pending := None, cache := s.cache[p.directory := Entry(p.fingerprint.value, p.projects)])
    else s.(pending := None, cache := s.cache - {p.directory})
  }

  datatype Event =
    | Write(directory: string, name: string, content: string, mtime: int)
    | Delete(directory: string, name: string)
    | DropDirectory(directory: string)
    | Advance(ticks: nat)
    | Read(directory: string, readable: bool)
    | Decide

  /** mtimes are the clock rounded down by at most `grain`; a load decides within `span` of its reading. */
  predicate Enabled(grain: nat, span: nat, s: State, e: Event) {
    match e
    case Write(_, _, _, mtime) => s.now - grain <= mtime <= s.now
    case Read(_, _) => s.pending == None
    case Decide => s.pending.Some? && s.now - s.pending.value.since <= span
    case _ => true
  }

  function Step(grain: nat, span: nat, parse: Parser, s: State, e: Event): State
    requires Enabled(grain, span, s, e)
  {
    match e
    case Write(directory, name, content, mtime) =>
      s.(dirs := s.dirs[directory := Put(Files(s, directory), File(name, content, mtime))])
    case Delete(directory, name) =>
      if directory in s.dirs then s.(dirs := s.dirs[directory := Without(s.dirs[directory], name)]) else s
    case DropDirectory(directory) => s.(dirs := s.dirs - {directory})
    case Advance(ticks) => s.(now := s.now + ticks)
    case Read(directory, readable) => ReadStep(parse, s, directory, readable).0
    case Decide => SettleStep(s)
  }

  /** Every event can happen when its turn comes. */
  ghost predicate Runs(grain: nat, span: nat, parse: Parser, s: State, es: seq<Event>)
    decreases |es|
  {
    es == [] || (Enabled(grain, span, s, es[0]) &&
      Runs(grain, span, parse, Step(grain, span, parse, s, es[0]), es[1..]))
  }

  /** Every load of the run answers what the files say at its reading. */
  ghost predicate TellsTheTruth(grain: nat, span: nat, parse: Parser, s: State, es: seq<Event>)
    requires Runs(grain, span, parse, s, es)
    decreases |es|
  {
    es == [] || (
      && (es[0].Read? && !Blank(es[0].directory) ==>
            ReadStep(parse, s, es[0].directory, es[0].readable).1 == Projects(parse, Files(s, es[0].directory)))
      && TellsTheTruth(grain, span, parse, Step(grain, span, parse, s, es[0]), es[1..]))
  }

  function Empty(): State { State(map[], 0, map[], None) }

  // ------------------------------------------------------------ the invariant

  /** The result was read off `was`; what is in the directory now was there then, or is stamped `bound` or later. */
  ghost predicate ReadOff(parse: Parser, fingerprint: seq<Stamp>, projects: seq<Project>, was: seq<File>,
      d: seq<File>, bound: int) {
    && Sorted(was) && fingerprint == Stamps(was) && projects == Projects(parse, was)
    && forall f | f in d :: f in was || f.mtime >= bound
  }

  /** ... and everything it was read off is older than that, and than any stamp yet to come. */
  ghost predicate Kept(grain: nat, parse: Parser, e: Entry, d: seq<File>, now: int) {
    exists was: seq<File>, bound: int ::
      ReadOff(parse, e.fingerprint, e.projects, was, d, bound) && bound <= now - grain &&
        forall g | g in Configs(was) :: g.mtime < bound
  }

  ghost predicate Underway(grain: nat, parse: Parser, p: Pending, d: seq<File>, now: int) {
    && p.since <= now
    && (p.fingerprint.Some? ==>
          exists was: seq<File>, bound: int ::
            ReadOff(parse, p.fingerprint.value, p.projects, was, d, bound) && bound == p.since - grain)
  }

  ghost predicate Inv(grain: nat, parse: Parser, s: State) {
    && (forall directory | directory in s.dirs :: Sorted(s.dirs[directory]))
    && (forall directory | directory in s.cache :: Kept(grain, parse, s.cache[directory], Files(s, directory), s.now))
    && (s.pending.Some? ==> Underway(grain, parse, s.pending.value, Files(s, s.pending.value.directory), s.now))
  }

  /** With the same names, mtimes and sizes, and nothing restamped, it is the same directory. */
  lemma SameStampsSameFiles(parse: Parser, fingerprint: seq<Stamp>, projects: seq<Project>, was: seq<File>,
      d: seq<File>, bound: int)
    requires ReadOff(parse, fingerprint, projects, was, d, bound) && Sorted(d)
    requires forall g | g in Configs(was) :: g.mtime < bound
    ensures Stamps(d) == fingerprint ==> Projects(parse, d) == projects
  {
    var a, b := Configs(was), Configs(d);
    ConfigsKeep(was);
    ConfigsKeep(d);
    if Stamps(d) == fingerprint {
      assert |a| == |b| by { assert |Stamps(was)| == |Stamps(d)|; }
      forall i | 0 <= i < |a| ensures a[i] == b[i] {
        assert Stamps(was)[i] == StampOf(a[i]) && Stamps(d)[i] == StampOf(b[i]);
        assert a[i] in a && b[i] in b;
        assert b[i] in was;
        assert b[i] in a;
        var j :| 0 <= j < |a| && a[j] == b[i];
        PrecedesIsStrict(a[i].name, a[i].name, a[i].name);
      }
      assert a == b;
    }
  }

  /** A load tells the truth. */
  lemma ReadIsTrue(grain: nat, parse: Parser, s: State, directory: string, readable: bool)
    requires Inv(grain, parse, s) && s.pending == None && !Blank(directory)
    ensures ReadStep(parse, s, directory, readable).1 == Projects(parse, Files(s, directory))
  {
    if directory in s.dirs && directory in s.cache {
      var e, d := s.cache[directory], s.dirs[directory];
      var was, bound :| ReadOff(parse, e.fingerprint, e.projects, was, d, bound) && bound <= s.now - grain &&
        forall g | g in Configs(was) :: g.mtime < bound;
      SameStampsSameFiles(parse, e.fingerprint, e.projects, was, d, bound);
    }
  }

  /** Files that stay, and files stamped from now on, keep what was read. */
  lemma ReadOffKeeps(grain: nat, parse: Parser, s: State, directory: string, d: seq<File>, now: int)
    requires Inv(grain, parse, s) && now >= s.now
    requires forall f | f in d :: f in Files(s, directory) || f.mtime >= s.now - grain
    ensures directory in s.cache ==> Kept(grain, parse, s.cache[directory], d, now)
    ensures s.pending.Some? && s.pending.value.directory == directory ==>
      Underway(grain, parse, s.pending.value, d, now)
  {
    if directory in s.cache {
      var e := s.cache[directory];
      var was, bound :| ReadOff(parse, e.fingerprint, e.projects, was, Files(s, directory), bound) &&
        bound <= s.now - grain && forall g | g in Configs(was) :: g.mtime < bound;
      assert ReadOff(parse, e.fingerprint, e.projects, was, d, bound);
    }
    if s.pending.Some? && s.pending.value.directory == directory && s.pending.value.fingerprint.Some? {
      var p := s.pending.value;
      var was, bound :| ReadOff(parse, p.fingerprint.value, p.projects, was, Files(s, directory), bound) &&
        bound == p.since - grain;
      assert ReadOff(parse, p.fingerprint.value, p.projects, was, d, bound);
    }
  }

  lemma FilesystemKeeps(grain: nat, parse: Parser, s: State, t: State)
    requires Inv(grain, parse, s) && t.cache == s.cache && t.pending == s.pending && t.now >= s.now
    requires forall directory | directory in t.dirs :: Sorted(t.dirs[directory])
    requires forall directory: string, f: File | f in Files(t, directory) ::
      f in Files(s, directory) || f.mtime >= s.now - grain
    ensures Inv(grain, parse, t)
  {
    hide Kept, Underway;
    forall directory: string
      ensures directory in t.cache ==> Kept(grain, parse, t.cache[directory], Files(t, directory), t.now)
      ensures t.pending.Some? && t.pending.value.directory == directory ==>
        Underway(grain, parse, t.pending.value, Files(t, directory), t.now)
    {
      ReadOffKeeps(grain, parse, s, directory, Files(t, directory), t.now);
    }
  }

  lemma ReadKeeps(grain: nat, parse: Parser, s: State, directory: string, readable: bool)
    requires Inv(grain, parse, s) && s.pending == None
    ensures Inv(grain, parse, ReadStep(parse, s, directory, readable).0)
  {
    var t := ReadStep(parse, s, directory, readable).0;
    if t != s {
      var d := s.dirs[directory];
      assert ReadOff(parse, Stamps(d), Projects(parse, d), d, d, s.now - grain);
    }
  }

  /** A fingerprint settled at `now` holds no stamp of the last two seconds. */
  lemma SettledIsOld(was: seq<File>, now: int)
    requires Settled(Stamps(was), now)
    ensures forall g | g in Configs(was) :: g.mtime < now - SETTLE
  {
    forall g | g in Configs(was) ensures g.mtime < now - SETTLE {
      var i :| 0 <= i < |Configs(was)| && Configs(was)[i] == g;
      assert Stamps(was)[i] == StampOf(g);
    }
  }

  /** The settle time covers the rounding and the time the load took. */
  lemma DecideKeeps(grain: nat, span: nat, parse: Parser, s: State)
    requires Inv(grain, parse, s) && Enabled(grain, span, s, Decide) && grain + span <= SETTLE
    ensures Inv(grain, parse, SettleStep(s))
  {
    hide Settled, Stamps, Projects, Configs, Sorted;
    var p := s.pending.value;
    var t := SettleStep(s);
    var d := Files(s, p.directory);
    forall directory | directory in t.cache && directory != p.directory
      ensures Kept(grain, parse, t.cache[directory], Files(t, directory), t.now)
    {
      assert t.cache[directory] == s.cache[directory];
    }
    if p.directory in t.cache {
      var was, bound :| ReadOff(parse, p.fingerprint.value, p.projects, was, d, bound) && bound == p.since - grain;
      SettledIsOld(was, s.now);
      assert Kept(grain, parse, Entry(p.fingerprint.value, p.projects), d, t.now);
    }
  }

  lemma StepKeeps(grain: nat, span: nat, parse: Parser, s: State, e: Event)
    requires Inv(grain, parse, s) && Enabled(grain, span, s, e) && grain + span <= SETTLE
    ensures Inv(grain, parse, Step(grain, span, parse, s, e))
  {
    var t := Step(grain, span, parse, s, e);
    match e
    case Write(directory, name, content, mtime) =>
      PutKeeps(Files(s, directory), File(name, content, mtime));
      FilesystemKeeps(grain, parse, s, t);
    case Delete(directory, name) =>
      WithoutKeeps(Files(s, directory), name);
      FilesystemKeeps(grain, parse, s, t);
    case DropDirectory(directory) => FilesystemKeeps(grain, parse, s, t);
    case Advance(ticks) => FilesystemKeeps(grain, parse, s, t);
    case Read(directory, readable) => ReadKeeps(grain, parse, s, directory, readable);
    case Decide => DecideKeeps(grain, span, parse, s);
  }

  lemma {:induction false} CoherentFrom(grain: nat, span: nat, parse: Parser, s: State, es: seq<Event>)
    requires Inv(grain, parse, s) && Runs(grain, span, parse, s, es) && grain + span <= SETTLE
    ensures TellsTheTruth(grain, span, parse, s, es)
    decreases |es|
  {
    hide Inv;
    if es != [] {
      if es[0].Read? && !Blank(es[0].directory) {
        ReadIsTrue(grain, parse, s, es[0].directory, es[0].readable);
      }
      StepKeeps(grain, span, parse, s, es[0]);
      CoherentFrom(grain, span, parse, Step(grain, span, parse, s, es[0]), es[1..]);
    }
  }

  // ------------------------------------------------------------ exactly when the cache is coherent

  /** Over every run, every load tells the truth. */
  ghost predicate Coherent(grain: nat, span: nat, parse: Parser) {
    forall es | Runs(grain, span, parse, Empty(), es) :: TellsTheTruth(grain, span, parse, Empty(), es)
  }

  /** Write x; read it; overwrite it in the same tick with y; decide after `span`; load again. */
  function StaleRun(grain: nat, span: nat, x: string, y: string): seq<Event> {
    [Write("p", "a.yml", x, 0), Advance(grain), Read("p", true), Write("p", "a.yml", y, 0), Advance(span), Decide,
      Read("p", true)]
  }

  lemma StaleRunLies(grain: nat, span: nat, parse: Parser, x: string, y: string)
    requires |x| == |y| && ParseAll(parse, [File("a.yml", x, 0)]) != ParseAll(parse, [File("a.yml", y, 0)])
    requires grain + span > SETTLE
    ensures Runs(grain, span, parse, Empty(), StaleRun(grain, span, x, y))
    ensures !TellsTheTruth(grain, span, parse, Empty(), StaleRun(grain, span, x, y))
  {
    hide Stamps, Projects, Precedes;
    var dx, dy := [File("a.yml", x, 0)], [File("a.yml", y, 0)];
    OneConfig(parse, x);
    OneConfig(parse, y);
    var s1 := State(map["p" := dx], 0, map[], None);
    var s2 := s1.(now := grain);
    var s3 := s2.(pending := Some(Pending("p", Some(Stamps(dx)), Projects(parse, dx), grain)));
    var s4 := s3.(dirs := map["p" := dy]);
    var s5 := s4.(now := grain + span);
    var s6 := s5.(pending := None, cache := map["p" := Entry(Stamps(dx), Projects(parse, dx))]);
    var es := StaleRun(grain, span, x, y);
    var last := es[6..];
    assert last == [Read("p", true)];
    assert ReadStep(parse, s6, "p", true) == (s6, Projects(parse, dx));
    assert Runs(grain, span, parse, Step(grain, span, parse, s6, last[0]), last[1..]);
    assert Stale(grain, span, parse, s6, last);
    OneEvent(grain, span, parse, s5, s6, es[5..]);
    OneEvent(grain, span, parse, s4, s5, es[4..]);
    OneEvent(grain, span, parse, s3, s4, es[3..]);
    OneEvent(grain, span, parse, s2, s3, es[2..]);
    OneEvent(grain, span, parse, s1, s2, es[1..]);
    OneEvent(grain, span, parse, Empty(), s1, es);
  }

  ghost predicate Stale(grain: nat, span: nat, parse: Parser, s: State, es: seq<Event>) {
    Runs(grain, span, parse, s, es) && !TellsTheTruth(grain, span, parse, s, es)
  }

  lemma OneEvent(grain: nat, span: nat, parse: Parser, s: State, t: State, es: seq<Event>)
    requires es != [] && Enabled(grain, span, s, es[0]) && t == Step(grain, span, parse, s, es[0])
    requires Stale(grain, span, parse, t, es[1..])
    ensures Stale(grain, span, parse, s, es)
  {
  }

  lemma OneConfig(parse: Parser, x: string)
    ensures Configs([File("a.yml", x, 0)]) == [File("a.yml", x, 0)]
    ensures Stamps([File("a.yml", x, 0)]) == [Stamp("a.yml", 0, |x|)]
    ensures Projects(parse, [File("a.yml", x, 0)]) == ParseAll(parse, [File("a.yml", x, 0)])
    ensures !Blank("p")
  {
    var d := [File("a.yml", x, 0)];
    assert "a.yml"[1..] == ".yml";
    assert Configs(d[1..]) == [];
    assert "p"[0] == 'p';
  }

  /**
   The cache agrees with re-reading the directory over every run exactly when rounding and
   the longest load fit into the settle time together. x and y are any two configs of one
   length that parse differently.
   */
  lemma CoherentExactlyWhen(grain: nat, span: nat, parse: Parser, x: string, y: string)
    requires |x| == |y| && ParseAll(parse, [File("a.yml", x, 0)]) != ParseAll(parse, [File("a.yml", y, 0)])
    ensures Coherent(grain, span, parse) <==> grain + span <= 2_000_000_000
  {
    if grain + span <= SETTLE {
      forall es | Runs(grain, span, parse, Empty(), es) ensures TellsTheTruth(grain, span, parse, Empty(), es) {
        CoherentFrom(grain, span, parse, Empty(), es);
      }
    } else {
      StaleRunLies(grain, span, parse, x, y);
    }
  }

  // ------------------------------------------------------------ the loader

  /** One undisturbed load: the reading, `took` nanoseconds, the decision. */
  function LoadStep(parse: Parser, s: State, directory: string, readable: bool, took: nat): State
    requires s.pending == None
  {
    var t := ReadStep(parse, s, directory, readable).0;
    if t.pending == None then t else SettleStep(t.(now := t.now + took))
  }

  lemma ConfigsFront(d: seq<File>, i: nat)
    requires i < |d|
    ensures Configs(d[..i + 1]) == Configs(d[..i]) + if IsConfig(d[i].name) then [d[i]] else []
  {
    hide IsConfig;
    if i > 0 {
      ConfigsFront(d[1..], i - 1);
      assert d[..i + 1][1..] == d[1..][..i] && d[..i][1..] == d[1..][..i - 1];
    } else {
      assert d[..1][1..] == [] && d[..0] == [];
    }
  }

  lemma WholeDirectory(d: seq<File>)
    ensures d[..|d|] == d && Configs(d[..0]) == []
  {
  }

  /** A load keeps the cache honest and answers what the files say. */
  lemma LoadKeeps(grain: nat, parse: Parser, s: State, directory: string, readable: bool, took: nat)
    requires Inv(grain, parse, s) && s.pending == None && grain + took <= SETTLE
    ensures Inv(grain, parse, LoadStep(parse, s, directory, readable, took))
    ensures LoadStep(parse, s, directory, readable, took).pending == None
    ensures !Blank(directory) ==> ReadStep(parse, s, directory, readable).1 == Projects(parse, Files(s, directory))
  {
    hide Inv;
    var t := ReadStep(parse, s, directory, readable).0;
    StepKeeps(grain, took, parse, s, Read(directory, readable));
    if t.pending.Some? {
      StepKeeps(grain, took, parse, t, Advance(took));
      StepKeeps(grain, took, parse, t.(now := t.now + took), Decide);
    }
    if !Blank(directory) {
      ReadIsTrue(grain, parse, s, directory, readable);
    }
  }

  class ConfigLoader {
    const parse: Parser
    var dirs: map<string, seq<File>>
    var now: int
    var cache: map<string, Entry>

    ghost function W(): State
      reads this
    {
      State(dirs, now, cache, None)
    }

    constructor (parse: Parser)
      ensures W() == Empty() && this.parse == parse
    {
      this.parse := parse;
      dirs, now, cache := map[], 0, map[];
    }

    method Fingerprint(directory: string) returns (out: seq<Stamp>)
      requires directory in dirs
      ensures out == Stamps(dirs[directory])
    {
      hide IsConfig;
      var d := dirs[directory];
      out := [];
      WholeDirectory(d);
      for i := 0 to |d|
        invariant out == Stamps(d[..i])
      {
        ConfigsFront(d, i);
        if IsConfig(d[i].name) {
          out := out + [Stamp(d[i].name, d[i].mtime, |d[i].content|)];
        }
      }
    }

    method HasSettled(fingerprint: seq<Stamp>) returns (settled: bool)
      ensures settled == Settled(fingerprint, now)
    {
      if |fingerprint| == 0 { return true; }
      var newest := fingerprint[0].mtime;
      for i := 1 to |fingerprint|
        invariant exists j :: 0 <= j < i && newest == fingerprint[j].mtime
        invariant forall j | 0 <= j < i :: fingerprint[j].mtime <= newest
      {
        if fingerprint[i].mtime > newest { newest := fingerprint[i].mtime; }
      }
      return now - newest > SETTLE;
    }

    method ReadAll(directory: string) returns (projects: seq<Project>)
      requires directory in dirs
      ensures projects == Projects(parse, dirs[directory])
    {
      hide IsConfig;
      var d := dirs[directory];
      projects := [];
      WholeDirectory(d);
      for i := 0 to |d|
        invariant projects == Projects(parse, d[..i])
      {
        ConfigsFront(d, i);
        ghost var before := Configs(d[..i]);
        assert before + [] == before;
        if IsConfig(d[i].name) {
          assert (before + [d[i]])[..|before|] == before;
          assert Projects(parse, d[..i + 1]) ==
            Projects(parse, d[..i]) + match parse(d[i].content) case None => [] case Some(p) => [p];
          match parse(d[i].content) {
            case None =>
            case Some(p) => projects := projects + [p];
          }
        }
      }
    }

    /** Load all project configs of a directory; reading it takes `took` nanoseconds. */
    method Load(directory: string, readable: bool, took: nat) returns (projects: seq<Project>)
      modifies this
      ensures projects == ReadStep(parse, old(W()), directory, readable).1
      ensures W() == LoadStep(parse, old(W()), directory, readable, took)
      ensures forall grain: nat | Inv(grain, parse, old(W())) && grain + took <= SETTLE ::
        Inv(grain, parse, W()) && (!Blank(directory) ==> projects == Projects(parse, Files(old(W()), directory)))
    {
      hide Inv, Stamps, Projects, Settled, Blank;
      ghost var was := W();
      forall grain: nat | Inv(grain, parse, was) && grain + took <= SETTLE {
        LoadKeeps(grain, parse, was, directory, readable, took);
      }
      if Blank(directory) || directory !in dirs { return []; }
      var fingerprint: Option<seq<Stamp>> := None;
      if readable {
        var out := Fingerprint(directory);
        fingerprint := Some(out);
      }
      if directory in cache && fingerprint == Some(cache[directory].fingerprint) {
        return cache[directory].projects;
      }
      projects := ReadAll(directory);
      now := now + took;
      var keep := false;
      if fingerprint.Some? {
        keep := HasSettled(fingerprint.value);
      }
      if keep {
        cache := cache[directory := Entry(fingerprint.value, projects)];
      } else {
        cache := cache - {directory};
      }
    }
  }
}
