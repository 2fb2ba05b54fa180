/** What a run decides about a branch before it touches a target: Backporter.plan(). */
module Planning {
  import opened Wrappers
  import opened Routing
  import opened Repository

  datatype Config = Config(
    targets: seq<string>,
    strip: seq<string>,
    maxCommits: nat,
    pickFromFork: bool,
    skipCi: bool,
    doPush: bool,
    doCompile: bool,
    ciShortcut: bool,
    cleanRetry: bool,
    localStandIn: bool,
    refreshBeforeRetry: bool,
    dryRun: bool,
    sanity: bool,
    operatorReview: bool,
    ignoreLedger: bool,
    assumeYes: bool,
    jobs: nat)

  /** The refs of the repository: upstream tracking refs, the fork's, local branches, and any other. */
  datatype Refs = Refs(
    upstream: map<string, History>,
    fork: map<string, History>,
    local: map<string, History>,
    other: map<string, History>,
    objects: map<nat, Commit>)

  /** One line of branches-already-merged.csv; no commit when none could be named. */
  datatype Row = Row(branch: string, target: string, commit: Option<nat>, sourceHead: History)

  datatype Source = Source(
    name: string,
    explicitBase: Option<string>,
    forkName: string,
    forkHead: History,
    pickName: string,
    head: History,
    ciGreen: bool,
    ciCovers: bool,
    base: History,
    baseBranch: string,
    commits: History)

  function FreshSource(entry: Entry): Source {
    Source(entry.name, entry.base, "", [], "", [], false, false, [], "", [])
  }

  // ------------------------------------------------------------ the ledger

  function MergedPairs(rows: seq<Row>): set<(string, string)> {
    set r | r in rows :: (r.branch, r.target)
  }

  /** The last row for a pair that names a commit decides. */
  function LedgerCommit(rows: seq<Row>, branch: string, target: string): (c: Option<nat>)
    ensures c.Some? ==> (branch, target) in MergedPairs(rows)
  {
    if rows == [] then None else
      var last := rows[|rows| - 1];
      if last.branch == branch && last.target == target && last.commit.Some? then
        assert last in rows;
        last.commit
      else
        assert forall r | r in rows[..|rows| - 1] :: r in rows;
        LedgerCommit(rows[..|rows| - 1], branch, target)
  }

  /** What the ledger remembers of a pair is what its last row with a commit says. */
  lemma {:induction false} LedgerRemembers(rows: seq<Row>, branch: string, target: string, id: nat)
    ensures LedgerCommit(rows, branch, target) == Some(id) <==>
      exists i | 0 <= i < |rows| ::
        && rows[i].branch == branch && rows[i].target == target && rows[i].commit == Some(id)
        && forall j | i < j < |rows| && rows[j].branch == branch && rows[j].target == target :: rows[j].commit == None
    decreases |rows|
  {
    if rows != [] {
      var n := |rows| - 1;
      LedgerRemembers(rows[..n], branch, target, id);
      assert forall i | 0 <= i < n :: rows[..n][i] == rows[i];
      assert rows[n].branch == branch && rows[n].target == target && rows[n].commit.Some? ==>
        LedgerCommit(rows, branch, target) == rows[n].commit;
    }
  }

  // ------------------------------------------------------------ finding the branch

  function ResolveOnFork(refs: Refs, listed: string, strip: seq<string>): Option<(string, History)> {
    if listed in refs.fork then Some((listed, refs.fork[listed]))
    else if Logical(listed, strip) in refs.fork then Some((Logical(listed, strip), refs.fork[Logical(listed, strip)]))
    else None
  }

  /** Where the commits come from: the local rewrite under the listed name, else the fork's copy. */
  function ResolvePick(cfg: Config, refs: Refs, name: string, forkName: string, forkHead: History): (string, History) {
    if !cfg.pickFromFork && name in refs.local then (name, refs.local[name]) else (forkName, forkHead)
  }

  /** The source as run() leaves it once it has been found on the fork. */
  function Resolved(cfg: Config, refs: Refs, src: Source): Option<Source> {
    match ResolveOnFork(refs, src.name, cfg.strip)
    case None => None
    case Some(found) =>
      var pick := ResolvePick(cfg, refs, src.name, found.0, found.1);
      Some(src.(forkName := found.0, forkHead := found.1, pickName := pick.0, head := pick.1))
  }

  // ------------------------------------------------------------ its base

  function Candidates(cfg: Config): seq<string> {
    ["master"] + BASE_CANDIDATES + cfg.targets
  }

  function AfterSlash(ref: string): string {
    if ref == "" then "" else
      var rest := AfterSlash(ref[1..]);
      if '/' in ref[1..] then rest else if ref[0] == '/' then ref[1..] else ref
  }

  function ExplicitBase(refs: Refs, ref: string, head: History): Base {
    if ref in refs.upstream then
      if Shared(refs.upstream[ref], head) == 0 then NoBase
      else CutFrom(head[..Shared(refs.upstream[ref], head)], AfterSlash(ref))
    else if ref in refs.other then
      if Shared(refs.other[ref], head) == 0 then NoBase
      else CutFrom(head[..Shared(refs.other[ref], head)], AfterSlash(ref))
    else NoBase
  }

  ghost predicate IsBaseOf(cfg: Config, refs: Refs, src: Source, base: Base) {
    match src.explicitBase
    case Some(ref) => base == ExplicitBase(refs, ref, src.head)
    case None => IsBestBase(refs.upstream, src.head, Candidates(cfg), base)
  }

  method PickBase(cfg: Config, refs: Refs, src: Source) returns (base: Base)
    ensures IsBaseOf(cfg, refs, src, base)
    ensures base.CutFrom? ==> base.at <= src.head
  {
    match src.explicitBase
    case Some(ref) => base := ExplicitBase(refs, ref, src.head);
    case None => base := BestBase(refs.upstream, src.head, Candidates(cfg));
  }

  lemma BaseUnique(cfg: Config, refs: Refs, src: Source, a: Base, b: Base)
    requires IsBaseOf(cfg, refs, src, a) && IsBaseOf(cfg, refs, src, b)
    ensures a == b
  {
    if src.explicitBase == None {
      BestBaseUnique(refs.upstream, src.head, Candidates(cfg), a, b);
    }
  }

  /** The base a source is planned on. */
  ghost function BaseFor(cfg: Config, refs: Refs, src: Source): (base: Base)
    ensures IsBaseOf(cfg, refs, src, base)
  {
    BaseExists(cfg, refs, src);
    var base :| IsBaseOf(cfg, refs, src, base);
    base
  }

  lemma BaseExists(cfg: Config, refs: Refs, src: Source)
    ensures exists base :: IsBaseOf(cfg, refs, src, base)
  {
    match src.explicitBase
    case Some(ref) => assert IsBaseOf(cfg, refs, src, ExplicitBase(refs, ref, src.head));
    case None =>
      var base := BestBaseExists(refs.upstream, src.head, Candidates(cfg));
      assert IsBaseOf(cfg, refs, src, base);
  }

  // ------------------------------------------------------------ what is left to do

  function TipId(h: History): set<nat> {
    if h == [] then {} else {h[|h| - 1].id}
  }

  /** The ledger's master commit for this branch, if the object is still there. */
  function Remembered(refs: Refs, rows: seq<Row>, name: string): Option<Commit> {
    match LedgerCommit(rows, name, "master")
    case Some(id) => if id in refs.objects then Some(refs.objects[id]) else None
    case None => None
  }

  /** This branch's series as it exists on upstream master. */
  function SeriesOnMaster(refs: Refs, rows: seq<Row>, src: Source): History {
    var master := if "master" in refs.upstream then refs.upstream["master"] else [];
    OnMaster(src.commits, Remembered(refs, rows, src.name), Span(src.base, master))
  }

  /** Every sha a backport of this change may have been recorded under. */
  function Spellings(refs: Refs, rows: seq<Row>, src: Source): set<nat> {
    TipId(src.forkHead)
    + (set c | c in src.commits :: c.id)
    + (set c | c in SeriesOnMaster(refs, rows, src) :: c.id)
    + (match LedgerCommit(rows, src.name, "master") case Some(id) => {id} case None => {})
  }

  /** The fork's tip, the commits themselves, what they are on master, and what the ledger says landed there. */
  lemma SpelledExactlyBy(refs: Refs, rows: seq<Row>, src: Source, id: nat)
    ensures id in Spellings(refs, rows, src) <==>
      || (src.forkHead != [] && src.forkHead[|src.forkHead| - 1].id == id)
      || Holds(src.commits, id) || Holds(SeriesOnMaster(refs, rows, src), id)
      || LedgerCommit(rows, src.name, "master") == Some(id)
  {
    hide SeriesOnMaster, LedgerCommit;
    var found := SeriesOnMaster(refs, rows, src);
    assert forall c :: c in src.commits <==> exists i | 0 <= i < |src.commits| :: src.commits[i] == c;
    assert forall c :: c in found <==> exists i | 0 <= i < |found| :: found[i] == c;
  }

  function Landing(refs: Refs, rows: seq<Row>, src: Source, target: string): Landed {
    if target !in refs.upstream then Absent
    else AlreadyLanded(refs.upstream[target], src.base, src.head, Spellings(refs, rows, src))
  }

  datatype Why = AlreadyContained | BaseUnknown | NoCommits | TooManyCommits | NeedsSquashing
               | LeftToSiblings | MergedEarlier | LandedEverywhere
  datatype Plan = Nothing(why: Why) | Send(targets: seq<string>)

  function WithBase(src: Source, base: Base): Source {
    match base
    case CutFrom(at, branch) => src.(base := at, baseBranch := branch, commits := Series(at, src.head))
    case _ => src
  }

  function Unmerged(targets: seq<string>, name: string, merged: set<(string, string)>): (rest: seq<string>)
    ensures forall t :: t in rest <==> t in targets && (name, t) !in merged
    ensures Distinct(targets) ==> Distinct(rest)
  {
    if targets == [] then [] else
      var rest := Unmerged(targets[1..], name, merged);
      if (name, targets[0]) in merged then rest else [targets[0]] + rest
  }

  function NotLanded(refs: Refs, rows: seq<Row>, src: Source, targets: seq<string>): (rest: seq<string>)
    ensures forall t :: t in rest <==> t in targets && !Landing(refs, rows, src, t).Skip?
    ensures Distinct(targets) ==> Distinct(rest)
  {
    if targets == [] then [] else
      var rest := NotLanded(refs, rows, src, targets[1..]);
      if Landing(refs, rows, src, targets[0]).Skip? then rest else [targets[0]] + rest
  }

  /** plan(), for a source whose base has been worked out. */
  function PlanFrom(cfg: Config, refs: Refs, rows: seq<Row>, merged: set<(string, string)>,
                    listed: seq<string>, valid: seq<string>, src: Source, base: Base): Plan
  {
    if base.MergedInto? then Nothing(AlreadyContained)
    else if base.NoBase? then Nothing(BaseUnknown)
    else
      var s := WithBase(src, base);
      if s.commits == [] then Nothing(NoCommits)
      else if |s.commits| > cfg.maxCommits then Nothing(TooManyCommits)
      else if |s.commits| > 1 then Nothing(NeedsSquashing)
      else
        var routed := TargetsFor(s.name, s.baseBranch, valid, cfg.strip);
        var kept := Uncovered(routed, CoverageFor(s.name, routed, listed, cfg.strip));
        if kept == [] then Nothing(LeftToSiblings) else
          var remaining := Unmerged(kept, s.name, merged);
          if remaining == [] then Nothing(MergedEarlier) else
            var send := NotLanded(refs, rows, s, remaining);
            if send == [] then Nothing(LandedEverywhere) else Send(send)
  }

  /** dict.fromkeys(cfg.targets), less the targets that do not exist upstream. */
  function ValidTargets(targets: seq<string>, upstream: map<string, History>): (valid: seq<string>)
    ensures Distinct(valid)
    ensures forall t :: t in valid <==> t in targets && t in upstream
  {
    if targets == [] then [] else
      var front, last := targets[..|targets| - 1], targets[|targets| - 1];
      var before := ValidTargets(front, upstream);
      assert forall t :: t in targets <==> t in front || t == last;
      if last in upstream && last !in before then before + [last] else before
  }

  lemma UncoveredDistinct(targets: seq<string>, covered: Coverage)
    requires Distinct(targets)
    ensures Distinct(Uncovered(targets, covered))
  {
  }

  /** What every planned merge is: one commit, distinct targets, none merged, landed or a sibling's. */
  lemma PlanMeaning(cfg: Config, refs: Refs, rows: seq<Row>, merged: set<(string, string)>,
                    listed: seq<string>, valid: seq<string>, src: Source, base: Base)
    requires Distinct(valid)
    ensures
      var plan := PlanFrom(cfg, refs, rows, merged, listed, valid, src, base);
      var s := WithBase(src, base);
      var routed := TargetsFor(s.name, s.baseBranch, valid, cfg.strip);
      plan.Send? ==>
        && base.CutFrom? && |s.commits| == 1 && Distinct(plan.targets)
        && forall t :: t in plan.targets <==>
             && t in routed
             && (s.name, t) !in merged
             && !Landing(refs, rows, s, t).Skip?
             && !(SuffixTarget(s.name, cfg.strip) == None && exists other | other in listed ::
               IsSiblingCut(s.name, other, t, cfg.strip))
  {
    hide Landing, IsSiblingCut, SuffixTarget;
    var s := WithBase(src, base);
    var routed := TargetsFor(s.name, s.baseBranch, valid, cfg.strip);
    var covered := CoverageFor(s.name, routed, listed, cfg.strip);
    UncoveredDistinct(routed, covered);
    forall t ensures t in Uncovered(routed, covered) <==>
      t in routed && !(SuffixTarget(s.name, cfg.strip) == None && exists other | other in listed ::
        IsSiblingCut(s.name, other, t, cfg.strip))
    {
      CoverageMeaning(s.name, routed, listed, cfg.strip, t);
      assert Without(t, covered) <==> !Covers(covered, t);
    }
  }
}
