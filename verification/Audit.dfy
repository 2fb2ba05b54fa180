/**
 tools/check_fixes_landed.py: the audit that re-derives where every listed branch
 goes and looks for it there, and what its exit status says about a merge run.
 */
module Audit {
  import opened Wrappers
  import opened Routing
  import opened Repository
  import opened Planning

  datatype State = Ok | Covered | Missing | Stale | Lost | Unknown

  predicate NeedsALook(s: State) {
    s == Missing || s == Stale || s == Lost || s == Unknown
  }

  datatype Verdict = Verdict(target: string, state: State)

  /** The upstream branch contains the commit: it, or the linear history it tops, is a prefix. */
  predicate Contained(refs: Refs, head: History, target: string) {
    target in refs.upstream && head <= refs.upstream[target]
  }

  /** What the ledger says about this pair; nothing when it names no commit. */
  function LedgerCheck(refs: Refs, rows: seq<Row>, name: string, target: string): Option<State> {
    match LedgerCommit(rows, name, target)
    case None => None
    case Some(id) =>
      if id !in refs.objects then Some(Unknown)
      else if target in refs.upstream && Holds(refs.upstream[target], id) then Some(Ok)
      else Some(Lost)
  }

  function Classify(landed: Landed, ledger: Option<State>): State {
    if landed.Skip? then Ok
    else if ledger == Some(Ok) then Ok
    else if landed.Flag? then Stale
    else match ledger case Some(s) => s case None => Missing
  }

  function LedgerOr(refs: Refs, rows: seq<Row>, name: string, target: string): State {
    match LedgerCheck(refs, rows, name, target) case Some(s) => s case None => Unknown
  }

  /** One target of a branch whose head is known. */
  function Judge(cfg: Config, refs: Refs, rows: seq<Row>, src: Source, base: Base, target: string): State {
    if target !in refs.upstream then Unknown
    else match base
      case NoBase => LedgerOr(refs, rows, src.name, target)
      case MergedInto(into) =>
        if target == into || Contained(refs, src.head, target) then Ok else LedgerOr(refs, rows, src.name, target)
      case CutFrom(_, _) =>
        if src.commits == [] then
          if target == src.baseBranch || Contained(refs, src.head, target) then Ok
          else LedgerOr(refs, rows, src.name, target)
        else if |src.commits| > cfg.maxCommits then LedgerOr(refs, rows, src.name, target)
        else Classify(Landing(refs, rows, src, target), LedgerCheck(refs, rows, src.name, target))
  }

  function CoveredRows(covered: Coverage): (out: seq<Verdict>)
    ensures |out| == |covered| && forall i | 0 <= i < |out| :: out[i] == Verdict(covered[i].0, Covered)
  {
    seq(|covered|, i requires 0 <= i < |covered| => Verdict(covered[i].0, Covered))
  }

  function JudgedRows(cfg: Config, refs: Refs, rows: seq<Row>, src: Source, base: Base,
      todo: seq<string>): (out: seq<Verdict>)
    ensures |out| == |todo| && forall i | 0 <= i < |out| ::
      out[i] == Verdict(todo[i], Judge(cfg, refs, rows, src, base, todo[i]))
  {
    seq(|todo|, i requires 0 <= i < |todo| => Verdict(todo[i], Judge(cfg, refs, rows, src, base, todo[i])))
  }

  /** The branch is neither local nor on the fork: routing and the ledger are all there is. */
  function UnfoundRows(cfg: Config, refs: Refs, rows: seq<Row>, name: string, planned: seq<string>,
      covered: Coverage): (out: seq<Verdict>)
    ensures |out| == |planned| && forall i | 0 <= i < |out| ::
      out[i] == Verdict(planned[i],
        if Without(planned[i], covered) then LedgerOr(refs, rows, name, planned[i]) else Covered)
  {
    seq(|planned|, i requires 0 <= i < |planned| =>
      Verdict(planned[i], if Without(planned[i], covered) then LedgerOr(refs, rows, name, planned[i]) else Covered))
  }

  /** The tip to audit: the local branch under the listed name, else the fork's copy. */
  function ResolveHead(cfg: Config, refs: Refs, src: Source): Option<Source> {
    var found := ResolveOnFork(refs, src.name, cfg.strip);
    if src.name in refs.local then
      var head := refs.local[src.name];
      match found
      case Some(f) => Some(src.(forkName := f.0, forkHead := f.1, head := head))
      case None => Some(src.(forkHead := head, head := head))
    else match found
      case Some(f) => Some(src.(forkName := f.0, forkHead := f.1, head := f.1))
      case None => None
  }

  /** What audit_source() reports, row by row, for a source whose base has been worked out. */
  function AuditRows(cfg: Config, refs: Refs, rows: seq<Row>, listed: seq<string>, src: Source,
      base: Base): seq<Verdict> {
    var s := WithBase(src, base);
    var planned := TargetsFor(s.name, s.baseBranch, cfg.targets, cfg.strip);
    var covered := CoverageFor(s.name, planned, listed, cfg.strip);
    CoveredRows(covered) + JudgedRows(cfg, refs, rows, s, base, Uncovered(planned, covered))
  }

  method AuditSource(cfg: Config, refs: Refs, rows: seq<Row>, listed: seq<string>,
      entry: Entry) returns (verdicts: seq<Verdict>)
    ensures IsAudit(cfg, refs, rows, listed, entry, verdicts)
    ensures ReportIsRight(cfg, refs, rows, listed, entry, verdicts)
  {
    verdicts := AuditEntry(cfg, refs, rows, listed, entry);
    AuditIsRight(cfg, refs, rows, listed, entry, verdicts);
  }

  method AuditEntry(cfg: Config, refs: Refs, rows: seq<Row>, listed: seq<string>,
      entry: Entry) returns (verdicts: seq<Verdict>)
    ensures IsAudit(cfg, refs, rows, listed, entry, verdicts)
  {
    var src := FreshSource(entry);
    match ResolveHead(cfg, refs, src)
    case None =>
      var planned := TargetsFor(src.name, "", cfg.targets, cfg.strip);
      var covered := SiblingCoverage(src.name, planned, listed, cfg.strip);
      verdicts := AuditUnfound(cfg, refs, rows, src.name, planned, covered);
    case Some(found) =>
      var base := PickBase(cfg, refs, found);
      var s := WithBase(found, base);
      var planned := TargetsFor(s.name, s.baseBranch, cfg.targets, cfg.strip);
      var covered := SiblingCoverage(s.name, planned, listed, cfg.strip);
      verdicts := AuditFound(cfg, refs, rows, s, base, covered, Uncovered(planned, covered));
      assert verdicts == AuditRows(cfg, refs, rows, listed, found, base);
  }

  method AuditUnfound(cfg: Config, refs: Refs, rows: seq<Row>, name: string, planned: seq<string>, covered: Coverage)
    returns (verdicts: seq<Verdict>)
    ensures verdicts == UnfoundRows(cfg, refs, rows, name, planned, covered)
  {
    verdicts := [];
    for i := 0 to |planned|
      invariant verdicts == UnfoundRows(cfg, refs, rows, name, planned, covered)[..i]
    {
      if Without(planned[i], covered) {
        verdicts := verdicts + [Verdict(planned[i], LedgerOr(refs, rows, name, planned[i]))];
      } else {
        verdicts := verdicts + [Verdict(planned[i], Covered)];
      }
    }
  }

  method AuditFound(cfg: Config, refs: Refs, rows: seq<Row>, src: Source, base: Base, covered: Coverage,
      todo: seq<string>)
    returns (verdicts: seq<Verdict>)
    ensures verdicts == CoveredRows(covered) + JudgedRows(cfg, refs, rows, src, base, todo)
  {
    verdicts := [];
    for i := 0 to |covered|
      invariant verdicts == CoveredRows(covered)[..i]
    {
      verdicts := verdicts + [Verdict(covered[i].0, Covered)];
    }
    for i := 0 to |todo|
      invariant verdicts == CoveredRows(covered) + JudgedRows(cfg, refs, rows, src, base, todo)[..i]
    {
      verdicts := verdicts + [Verdict(todo[i], Judge(cfg, refs, rows, src, base, todo[i]))];
    }
  }

  ghost predicate IsAudit(cfg: Config, refs: Refs, rows: seq<Row>, listed: seq<string>, entry: Entry,
      verdicts: seq<Verdict>) {
    var src := FreshSource(entry);
    match ResolveHead(cfg, refs, src)
    case None =>
      var planned := TargetsFor(src.name, "", cfg.targets, cfg.strip);
      verdicts == UnfoundRows(cfg, refs, rows, src.name, planned, CoverageFor(src.name, planned, listed, cfg.strip))
    case Some(found) =>
      exists base :: IsBaseOf(cfg, refs, found, base) && verdicts == AuditRows(cfg, refs, rows, listed, found, base)
  }

  /** The head audited is the local branch's, else the fork's; trailers are matched against the fork's, else that. */
  lemma HeadAudited(cfg: Config, refs: Refs, entry: Entry)
    ensures
      var name, logical := entry.name, Logical(entry.name, cfg.strip);
      var onFork := name in refs.fork || logical in refs.fork;
      match ResolveHead(cfg, refs, FreshSource(entry))
      case None => name !in refs.local && !onFork
      case Some(found) =>
        && (name in refs.local || onFork) && found.name == name && found.explicitBase == entry.base
        && (name in refs.local ==> found.head == refs.local[name])
        && (onFork ==> found.forkHead == refs.fork[if name in refs.fork then name else logical])
        && (name !in refs.local ==> found.head == found.forkHead)
        && (!onFork ==> found.forkHead == found.head)
  {
    hide Logical;
  }

  // ------------------------------------------------------------ what a row says

  /** The commit the ledger names for the pair is still on the target. */
  ghost predicate LedgerHeld(refs: Refs, rows: seq<Row>, name: string, t: string) {
    exists id :: LedgerCommit(rows, name, t) == Some(id) && id in refs.objects && t in refs.upstream &&
      Holds(refs.upstream[t], id)
  }

  /** The ledger names a commit that this repository has, and that the target does not. */
  ghost predicate LedgerBroken(refs: Refs, rows: seq<Row>, name: string, t: string) {
    exists id :: LedgerCommit(rows, name, t) == Some(id) && id in refs.objects &&
      !(t in refs.upstream && Holds(refs.upstream[t], id))
  }

  /** The branch has commits of its own, and not more than a fix may have: they can be looked for. */
  ghost predicate Comparable(cfg: Config, src: Source, base: Base) {
    base.CutFrom? && 0 < |src.commits| <= cfg.maxCommits
  }

  /** The branch has nothing of its own, and the target is the one it comes from or holds its head. */
  ghost predicate SitsOn(refs: Refs, src: Source, base: Base, t: string) {
    && (base.MergedInto? || (base.CutFrom? && src.commits == []))
    && (Contained(refs, src.head, t) || t == (if base.MergedInto? then base.branch else src.baseBranch))
  }

  /** There is a sign of the branch on the target: its head, its changes, or the ledger's commit. */
  ghost predicate HasSign(cfg: Config, refs: Refs, rows: seq<Row>, src: Source, base: Base, t: string) {
    && t in refs.upstream
    && (|| SitsOn(refs, src, base, t)
        || (Comparable(cfg, src, base) && Landing(refs, rows, src, t).Skip?)
        || LedgerHeld(refs, rows, src.name, t))
  }

  /** When each word of the report is used of a target that is nobody else's. */
  ghost predicate SaysRight(cfg: Config, refs: Refs, rows: seq<Row>, src: Source, base: Base, t: string, state: State)
  {
    var compared := Comparable(cfg, src, base) && t in refs.upstream;
    && (state == Ok <==> HasSign(cfg, refs, rows, src, base, t))
    && (state == Stale <==>
          compared && Landing(refs, rows, src, t).Flag? && !LedgerHeld(refs, rows, src.name, t))
    && (state == Missing <==>
          compared && Landing(refs, rows, src, t).Absent? && LedgerCommit(rows, src.name, t) == None)
    && (state == Lost <==>
          && t in refs.upstream && LedgerBroken(refs, rows, src.name, t)
          && !SitsOn(refs, src, base, t) && (compared ==> Landing(refs, rows, src, t).Absent?))
    && state != Covered
  }

  /** When each word is used of a target of a branch that is gone: the ledger is all there is. */
  ghost predicate SaysRightUnfound(refs: Refs, rows: seq<Row>, name: string, t: string, state: State) {
    && (state == Ok <==> LedgerHeld(refs, rows, name, t))
    && (state == Lost <==> LedgerBroken(refs, rows, name, t))
    && state in {Ok, Lost, Unknown}
  }

  lemma JudgeSaysRight(cfg: Config, refs: Refs, rows: seq<Row>, src: Source, base: Base, t: string)
    ensures SaysRight(cfg, refs, rows, src, base, t, Judge(cfg, refs, rows, src, base, t))
  {
    hide Landing;
    LedgerSaysRight(refs, rows, src.name, t);
    if t in refs.upstream {
      var ledger := LedgerCheck(refs, rows, src.name, t);
      assert ledger == Some(Ok) <==> LedgerHeld(refs, rows, src.name, t);
    }
  }

  lemma LedgerSaysRight(refs: Refs, rows: seq<Row>, name: string, t: string)
    ensures SaysRightUnfound(refs, rows, name, t, LedgerOr(refs, rows, name, t))
    ensures LedgerCheck(refs, rows, name, t) == Some(Lost) <==> LedgerBroken(refs, rows, name, t)
    ensures LedgerCheck(refs, rows, name, t) == Some(Ok) <==> LedgerHeld(refs, rows, name, t)
    ensures LedgerCheck(refs, rows, name, t) == None <==> LedgerCommit(rows, name, t) == None
  {
    hide LedgerCommit;
  }

  /** The targets an entry is routed to, given the branch it is cut from. */
  ghost predicate RoutedTo(cfg: Config, entry: Entry, baseBranch: string, t: string) {
    t in TargetsFor(entry.name, baseBranch, cfg.targets, cfg.strip)
  }

  /** A listed sibling is pinned to the target. */
  ghost predicate Claimed(cfg: Config, listed: seq<string>, entry: Entry, baseBranch: string, t: string) {
    Covers(CoverageFor(entry.name, TargetsFor(entry.name, baseBranch, cfg.targets, cfg.strip), listed, cfg.strip), t)
  }

  /**
   A report about an entry: it has a row for every target the entry is routed to and for no other,
   which is COVERED for what a sibling claims, and says of every other target what is true of it.
   */
  ghost predicate ReportIsRight(cfg: Config, refs: Refs, rows: seq<Row>, listed: seq<string>, entry: Entry,
                                verdicts: seq<Verdict>)
  {
    match ResolveHead(cfg, refs, FreshSource(entry))
    case None =>
      && (forall t | RoutedTo(cfg, entry, "", t) :: exists v | v in verdicts :: v.target == t)
      && (forall v | v in verdicts ::
            && RoutedTo(cfg, entry, "", v.target)
            && if Claimed(cfg, listed, entry, "", v.target) then v.state == Covered
               else SaysRightUnfound(refs, rows, entry.name, v.target, v.state))
    case Some(found) => exists base ::
      && IsBaseOf(cfg, refs, found, base)
      && var src := WithBase(found, base);
         && (forall t | RoutedTo(cfg, entry, src.baseBranch, t) :: exists v | v in verdicts :: v.target == t)
         && (forall v | v in verdicts ::
               && RoutedTo(cfg, entry, src.baseBranch, v.target)
               && if Claimed(cfg, listed, entry, src.baseBranch, v.target) then v.state == Covered
                  else SaysRight(cfg, refs, rows, src, base, v.target, v.state))
  }

  /** Every report is right, whatever the branch was cut from and whether or not it is still there. */
  lemma AuditIsRight(cfg: Config, refs: Refs, rows: seq<Row>, listed: seq<string>, entry: Entry,
                     verdicts: seq<Verdict>)
    requires IsAudit(cfg, refs, rows, listed, entry, verdicts)
    ensures ReportIsRight(cfg, refs, rows, listed, entry, verdicts)
  {
    hide SaysRight, SaysRightUnfound, Judge, IsBaseOf;
    match ResolveHead(cfg, refs, FreshSource(entry))
    case None =>
      var planned := TargetsFor(entry.name, "", cfg.targets, cfg.strip);
      var covered := CoverageFor(entry.name, planned, listed, cfg.strip);
      forall v | v in verdicts ensures
        && RoutedTo(cfg, entry, "", v.target)
        && if Claimed(cfg, listed, entry, "", v.target) then v.state == Covered
           else SaysRightUnfound(refs, rows, entry.name, v.target, v.state)
      {
        var i :| 0 <= i < |planned| && verdicts[i] == v;
        assert planned[i] in planned;
        CoversIsNotWithout(covered, v.target);
        LedgerSaysRight(refs, rows, entry.name, v.target);
      }
      forall t | t in planned ensures exists v | v in verdicts :: v.target == t {
        var i :| 0 <= i < |planned| && planned[i] == t;
        assert verdicts[i] in verdicts;
      }
    case Some(found) =>
      var base :| IsBaseOf(cfg, refs, found, base) && verdicts == AuditRows(cfg, refs, rows, listed, found, base);
      FoundIsRight(cfg, refs, rows, listed, entry, found, base);
  }

  lemma CoversIsNotWithout(covered: Coverage, t: string)
    ensures Covers(covered, t) <==> !Without(t, covered)
  {
  }

  lemma FoundIsRight(cfg: Config, refs: Refs, rows: seq<Row>, listed: seq<string>, entry: Entry, found: Source,
                     base: Base)
    requires found.name == entry.name && found.baseBranch == ""
    ensures
      var src, verdicts := WithBase(found, base), AuditRows(cfg, refs, rows, listed, found, base);
      && (forall t | RoutedTo(cfg, entry, src.baseBranch, t) :: exists v | v in verdicts :: v.target == t)
      && (forall v | v in verdicts ::
            && RoutedTo(cfg, entry, src.baseBranch, v.target)
            && if Claimed(cfg, listed, entry, src.baseBranch, v.target) then v.state == Covered
               else SaysRight(cfg, refs, rows, src, base, v.target, v.state))
  {
    hide SaysRight, Judge;
    var src := WithBase(found, base);
    var verdicts := AuditRows(cfg, refs, rows, listed, found, base);
    var planned := TargetsFor(entry.name, src.baseBranch, cfg.targets, cfg.strip);
    var covered := CoverageFor(entry.name, planned, listed, cfg.strip);
    forall v | v in verdicts ensures
      && RoutedTo(cfg, entry, src.baseBranch, v.target)
      && if Claimed(cfg, listed, entry, src.baseBranch, v.target) then v.state == Covered
         else SaysRight(cfg, refs, rows, src, base, v.target, v.state)
    {
      RowsAbout(cfg, refs, rows, listed, found, base, v.target);
      CoversIsNotWithout(covered, v.target);
      CoverageMeaning(entry.name, planned, listed, cfg.strip, v.target);
      JudgeSaysRight(cfg, refs, rows, src, base, v.target);
      CoveredOrTodo(cfg, refs, rows, src, base, covered, Todo(cfg, listed, src), v);
    }
    forall t | t in planned ensures exists v | v in verdicts :: v.target == t {
      RowsAbout(cfg, refs, rows, listed, found, base, t);
      CoversIsNotWithout(covered, t);
      if !Without(t, covered) {
        var i :| 0 <= i < |covered| && covered[i].0 == t;
        assert verdicts[i] == CoveredRows(covered)[i];
        assert verdicts[i] in verdicts;
      }
    }
  }

  lemma CoveredOrTodo(cfg: Config, refs: Refs, rows: seq<Row>, src: Source, base: Base, covered: Coverage,
                      todo: seq<string>, v: Verdict)
    requires v in CoveredRows(covered) + JudgedRows(cfg, refs, rows, src, base, todo)
    ensures v.target in todo || !Without(v.target, covered)
  {
    if v in CoveredRows(covered) {
      var i :| 0 <= i < |covered| && CoveredRows(covered)[i] == v;
    } else {
      var judged := JudgedRows(cfg, refs, rows, src, base, todo);
      var i :| 0 <= i < |todo| && judged[i] == v;
      assert todo[i] in todo;
    }
  }

  /**
   A clean report means every target of every listed branch is a sibling's or shows a sign of the
   branch; one target with none is enough for the audit not to exit with zero.
   */
  lemma CleanAuditMeansLanded(cfg: Config, refs: Refs, rows: seq<Row>, entries: seq<Entry>,
                              audits: seq<seq<Verdict>>, k: nat)
    requires |audits| == |entries| && k < |entries|
    requires forall i | 0 <= i < |entries| :: IsAudit(cfg, refs, rows, Names(entries), entries[i], audits[i])
    requires ExitsZero(audits)
    ensures match ResolveHead(cfg, refs, FreshSource(entries[k]))
      case None => forall t | RoutedTo(cfg, entries[k], "", t) ::
        Claimed(cfg, Names(entries), entries[k], "", t) || LedgerHeld(refs, rows, entries[k].name, t)
      case Some(found) => exists base ::
        && IsBaseOf(cfg, refs, found, base)
        && var src := WithBase(found, base);
           forall t | RoutedTo(cfg, entries[k], src.baseBranch, t) ::
             Claimed(cfg, Names(entries), entries[k], src.baseBranch, t) || HasSign(cfg, refs, rows, src, base, t)
  {
    hide IsBaseOf, RoutedTo, Claimed, HasSign, LedgerHeld, IsAudit;
    AuditIsRight(cfg, refs, rows, Names(entries), entries[k], audits[k]);
    assert forall v | v in audits[k] :: !NeedsALook(v.state);
  }

  // ------------------------------------------------------------ the two tools agree

  /** A branch found on the fork is audited at the very head a merge run would pick from. */
  lemma SameHead(cfg: Config, refs: Refs, entry: Entry)
    requires !cfg.pickFromFork && Resolved(cfg, refs, FreshSource(entry)).Some?
    ensures
      var run, audit := Resolved(cfg, refs, FreshSource(entry)).value, ResolveHead(cfg, refs, FreshSource(entry));
      audit.Some? && audit.value == run.(pickName := "")
  {
  }

  /** Routing over the targets that exist upstream is routing over all of them, restricted. */
  lemma SameRouting(cfg: Config, refs: Refs, listed: seq<string>, name: string, baseBranch: string, t: string)
    ensures
      var all := TargetsFor(name, baseBranch, cfg.targets, cfg.strip);
      var valid := TargetsFor(name, baseBranch, ValidTargets(cfg.targets, refs.upstream), cfg.strip);
      && (t in valid ==> t in all)
      && (t in all && t in refs.upstream ==> t in valid)
      && (t in valid ==>
            (t in Uncovered(valid, CoverageFor(name, valid, listed, cfg.strip))
             <==> t in Uncovered(all, CoverageFor(name, all, listed, cfg.strip))))
  {
    var all := TargetsFor(name, baseBranch, cfg.targets, cfg.strip);
    var valid := TargetsFor(name, baseBranch, ValidTargets(cfg.targets, refs.upstream), cfg.strip);
    CoverageMeaning(name, all, listed, cfg.strip, t);
    CoverageMeaning(name, valid, listed, cfg.strip, t);
    assert Without(t, CoverageFor(name, all, listed, cfg.strip)) <==>
      !Covers(CoverageFor(name, all, listed, cfg.strip), t);
    assert Without(t, CoverageFor(name, valid, listed, cfg.strip)) <==>
      !Covers(CoverageFor(name, valid, listed, cfg.strip), t);
  }

  /** The targets the audit looks for the change on, leaving the siblings' ones out. */
  function Todo(cfg: Config, listed: seq<string>, s: Source): seq<string> {
    var planned := TargetsFor(s.name, s.baseBranch, cfg.targets, cfg.strip);
    Uncovered(planned, CoverageFor(s.name, planned, listed, cfg.strip))
  }

  /** A target looked for has its one judgement; every other row about it says it is covered. */
  lemma RowsAbout(cfg: Config, refs: Refs, rows: seq<Row>, listed: seq<string>, src: Source, base: Base, t: string)
    ensures
      var s := WithBase(src, base);
      var audit := AuditRows(cfg, refs, rows, listed, src, base);
      && (t in Todo(cfg, listed, s) ==> Verdict(t, Judge(cfg, refs, rows, s, base, t)) in audit)
      && (forall v | v in audit && v.target == t ::
            if t in Todo(cfg, listed, s) then v.state == Judge(cfg, refs, rows, s, base, t) else v.state == Covered)
  {
    var s := WithBase(src, base);
    var planned := TargetsFor(s.name, s.baseBranch, cfg.targets, cfg.strip);
    var covered := CoverageFor(s.name, planned, listed, cfg.strip);
    var todo := Todo(cfg, listed, s);
    var judged := JudgedRows(cfg, refs, rows, s, base, todo);
    assert AuditRows(cfg, refs, rows, listed, src, base) == CoveredRows(covered) + judged;
    if t in todo {
      var i :| 0 <= i < |todo| && todo[i] == t;
      assert judged[i] in judged;
      assert forall v | v in CoveredRows(covered) :: v.target != t;
    }
  }

  /** What plan() keeps of a one-commit branch: routed, nobody else's, unmerged, not landed. */
  lemma PlanKeeps(cfg: Config, refs: Refs, rows: seq<Row>, listed: seq<string>, src: Source, base: Base, t: string)
    ensures
      var valid := ValidTargets(cfg.targets, refs.upstream);
      var s := WithBase(src, base);
      var plan := PlanFrom(cfg, refs, rows, MergedPairs(rows), listed, valid, src, base);
      (plan.Send? && t in plan.targets) <==>
        && base.CutFrom? && |Series(base.at, src.head)| == 1 <= cfg.maxCommits
        && t in TargetsFor(s.name, s.baseBranch, valid, cfg.strip) && t in Todo(cfg, listed, s)
        && (s.name, t) !in MergedPairs(rows) && !Landing(refs, rows, s, t).Skip?
  {
    var s := WithBase(src, base);
    SameRouting(cfg, refs, listed, s.name, s.baseBranch, t);
  }

  /** Without a ledger row for the pair, what the judgement of a content check can be. */
  lemma JudgedWithoutLedger(cfg: Config, refs: Refs, rows: seq<Row>, s: Source, base: Base, t: string)
    requires base.CutFrom? && |s.commits| == 1 <= cfg.maxCommits && (s.name, t) !in MergedPairs(rows)
    ensures Judge(cfg, refs, rows, s, base, t) in {Missing, Stale, Unknown} <==> !Landing(refs, rows, s, t).Skip?
  {
    assert LedgerCheck(refs, rows, s.name, t) == None;
  }

  /**
   For a one-commit branch with a known base, the targets a run would still send it to are
   exactly the ones routed to it that the audit calls MISSING, STALE or UNKNOWN and the ledger
   does not claim.
   */
  lemma PlannedIffAttention(cfg: Config, refs: Refs, rows: seq<Row>, listed: seq<string>, src: Source, base: Base,
      t: string)
    requires base.CutFrom? && |Series(base.at, src.head)| == 1 <= cfg.maxCommits
    ensures
      var valid := ValidTargets(cfg.targets, refs.upstream);
      var s := WithBase(src, base);
      var plan := PlanFrom(cfg, refs, rows, MergedPairs(rows), listed, valid, src, base);
      (plan.Send? && t in plan.targets) <==>
        && t in TargetsFor(s.name, s.baseBranch, valid, cfg.strip)
        && (s.name, t) !in MergedPairs(rows)
        && (exists v | v in AuditRows(cfg, refs, rows, listed, src, base) ::
              v.target == t && v.state in {Missing, Stale, Unknown})
  {
    var s := WithBase(src, base);
    PlanKeeps(cfg, refs, rows, listed, src, base, t);
    RowsAbout(cfg, refs, rows, listed, src, base, t);
    if (s.name, t) !in MergedPairs(rows) {
      JudgedWithoutLedger(cfg, refs, rows, s, base, t);
    }
  }

  /** Every target a run would still send a branch to needs a look, and no row calls it landed or covered. */
  lemma PlannedNeedsALook(cfg: Config, refs: Refs, rows: seq<Row>, listed: seq<string>, src: Source, base: Base,
      t: string)
    requires
      var plan := PlanFrom(cfg, refs, rows, MergedPairs(rows), listed, ValidTargets(cfg.targets, refs.upstream), src,
        base);
      plan.Send? && t in plan.targets
    ensures exists v | v in AuditRows(cfg, refs, rows, listed, src, base) :: v.target == t && NeedsALook(v.state)
    ensures forall v | v in AuditRows(cfg, refs, rows, listed, src, base) && v.target == t ::
      v.state in {Missing, Stale, Unknown}
  {
    PlanKeeps(cfg, refs, rows, listed, src, base, t);
    RowsAbout(cfg, refs, rows, listed, src, base, t);
    JudgedWithoutLedger(cfg, refs, rows, WithBase(src, base), base, t);
  }

  /** The exit status is zero when no row of any audit needs a look. */
  predicate ExitsZero(audits: seq<seq<Verdict>>) {
    forall i, j | 0 <= i < |audits| && 0 <= j < |audits[i]| :: !NeedsALook(audits[i][j].state)
  }

  /** What run() would do with one listed branch, before any CI or approval gate. */
  ghost predicate WouldMerge(cfg: Config, refs: Refs, rows: seq<Row>, listed: seq<string>, entry: Entry, t: string) {
    match Resolved(cfg, refs, FreshSource(entry))
    case None => false
    case Some(src) => exists base ::
      && IsBaseOf(cfg, refs, src, base)
      && var plan := PlanFrom(cfg, refs, rows, MergedPairs(rows), listed, ValidTargets(cfg.targets, refs.upstream),
        src, base);
         plan.Send? && t in plan.targets
  }

  /** A clean audit means a merge run over the same list, refs and ledger has nothing left to merge. */
  lemma CleanAuditMeansNothingToMerge(cfg: Config, refs: Refs, rows: seq<Row>, entries: seq<Entry>,
      audits: seq<seq<Verdict>>, k: nat, t: string)
    requires !cfg.pickFromFork && |audits| == |entries| && k < |entries|
    requires forall i | 0 <= i < |entries| :: IsAudit(cfg, refs, rows, Names(entries), entries[i], audits[i])
    requires ExitsZero(audits)
    ensures !WouldMerge(cfg, refs, rows, Names(entries), entries[k], t)
  {
    var listed, entry := Names(entries), entries[k];
    if WouldMerge(cfg, refs, rows, listed, entry, t) {
      var src := Resolved(cfg, refs, FreshSource(entry)).value;
      var valid := ValidTargets(cfg.targets, refs.upstream);
      var base :| IsBaseOf(cfg, refs, src, base)
        && var plan := PlanFrom(cfg, refs, rows, MergedPairs(rows), listed, valid, src, base);
           plan.Send? && t in plan.targets;
      SameHead(cfg, refs, entry);
      var found := src.(pickName := "");
      var audited :| IsBaseOf(cfg, refs, found, audited) &&
        audits[k] == AuditRows(cfg, refs, rows, listed, found, audited);
      BaseUnique(cfg, refs, found, base, audited);
      PickNameIrrelevant(cfg, refs, rows, listed, valid, src, base);
      PlannedNeedsALook(cfg, refs, rows, listed, found, base, t);
      assert false;
    }
  }

  /** Planning never looks at the name of the ref the commits come from. */
  lemma PickNameIrrelevant(cfg: Config, refs: Refs, rows: seq<Row>, listed: seq<string>, valid: seq<string>,
      src: Source, base: Base)
    ensures PlanFrom(cfg, refs, rows, MergedPairs(rows), listed, valid, src, base)
      == PlanFrom(cfg, refs, rows, MergedPairs(rows), listed, valid, src.(pickName := ""), base)
  {
    var s := WithBase(src, base);
    if base.CutFrom? {
      var routed := TargetsFor(s.name, s.baseBranch, valid, cfg.strip);
      var remaining := Unmerged(Uncovered(routed, CoverageFor(s.name, routed, listed, cfg.strip)), s.name,
        MergedPairs(rows));
      NotLandedIgnoresPickName(refs, rows, s, remaining);
    }
  }

  lemma {:induction false} NotLandedIgnoresPickName(refs: Refs, rows: seq<Row>, src: Source, targets: seq<string>)
    ensures NotLanded(refs, rows, src, targets) == NotLanded(refs, rows, src.(pickName := ""), targets)
  {
    if targets != [] {
      assert Spellings(refs, rows, src) == Spellings(refs, rows, src.(pickName := ""));
      NotLandedIgnoresPickName(refs, rows, src, targets[1..]);
    }
  }

  /**
   An OK row can be wrong only about a series of several commits: for a branch a run would
   merge at all, OK on content means the target carries its commit.
   */
  lemma OkIsTrueOfOneCommit(cfg: Config, refs: Refs, rows: seq<Row>, src: Source, base: Base, t: string)
    requires base.CutFrom? && |Series(base.at, src.head)| == 1 <= cfg.maxCommits && t in refs.upstream
    requires Judge(cfg, refs, rows, WithBase(src, base), base, t) == Ok
    ensures
      var s := WithBase(src, base);
      || Carries(refs.upstream[t], s.commits[0], Spellings(refs, rows, s))
      || (LedgerCommit(rows, s.name, t).Some? && Holds(refs.upstream[t], LedgerCommit(rows, s.name, t).value))
  {
    hide AlreadyLanded, Carries, Spellings, Shared;
    var s := WithBase(src, base);
    if Landing(refs, rows, s, t).Skip? {
      SkipIsSound(refs.upstream[t], s.base, s.head, Spellings(refs, rows, s));
    }
  }
}
