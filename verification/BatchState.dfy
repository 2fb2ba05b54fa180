/**
 The state of a batch run -- refs, push remote, ledger, and what has been published --
 and what one backport and one executed source may do to it.
 */
module BatchState {
  import opened Wrappers
  import opened Routing
  import opened Repository
  import opened Planning
  import opened Bags

  type Remote = map<string, History>

  /** What one successful push added: `commits`, from position `at` of the target on. */
  datatype Publication = Publication(name: string, target: string, at: nat, commits: History)

  datatype Outcome = CheckoutFailed | Conflict | NothingNew | HeldForReview | BuildFailed | PushFailed
                   | Pushed | WouldPush | NoSuchTarget
                   | HeldBack | NotOnFork | NotApproved | CiUnreadable | NoCi | Vanished | Moved
                   | StillBuilding | StillFailing
                   | BuiltHere | WouldWait | WouldRecheck

  /** The backport ended without a push, before or after picking. */
  predicate GaveUp(o: Outcome) {
    o == CheckoutFailed || o == Conflict || o == NothingNew || o == HeldForReview || o == BuildFailed || o == PushFailed
  }

  datatype Event = Event(name: string, target: string, outcome: Outcome)

  datatype PickAnswer = Applied(id: nat, patch: Option<nat>) | CameUpEmpty | Conflicted

  datatype BuildAnswer = BuildOk | BuildBroken | BuildTimedOut

  /** How one attempt at a push ended, and what went on around it. */
  datatype End = Arrived | Refusal | RebaseConflict | Retry
  datatype Round = Round(end: End, othersPushed: bool, fetched: bool)

  predicate Undisturbed(r: Round) {
    !r.othersPushed && r.fetched && r.end != Refusal && r.end != RebaseConflict
  }

  /** Nothing stood in the way of a push. */
  predicate Calm(rounds: seq<Round>) {
    forall r | r in rounds :: Undisturbed(r)
  }

  lemma CalmOneMore(rounds: seq<Round>, round: Round)
    ensures Calm(rounds + [round]) <==> Calm(rounds) && Undisturbed(round)
  {
    assert round in rounds + [round];
    assert forall r | r in rounds :: r in rounds + [round];
  }

  /** The push was given up: refused, in conflict, or three times too late. */
  predicate PushLost(rounds: seq<Round>) {
    && rounds != []
    && var last := rounds[|rounds| - 1].end;
       last == Refusal || last == RebaseConflict || (last == Retry && |rounds| == 3)
  }

  ghost predicate Grew(before: Remote, after: Remote) {
    before.Keys == after.Keys && forall t | t in before :: before[t] <= after[t]
  }

  /** What others push on top of the remote as it stands. */
  function Extended(remote: Remote, more: Remote): (after: Remote)
    ensures Grew(remote, after)
  {
    map t | t in remote :: remote[t] + if t in more then more[t] else []
  }

  /** The publication is still where the push put it. */
  ghost predicate InPlace(p: Publication, remote: Remote) {
    && p.target in remote && p.at + |p.commits| <= |remote[p.target]|
    && remote[p.target][p.at..p.at + |p.commits|] == p.commits
  }

  lemma StillInPlace(p: Publication, before: Remote, after: Remote)
    requires InPlace(p, before) && Grew(before, after)
    ensures InPlace(p, after)
  {
    assert before[p.target] <= after[p.target];
    assert after[p.target][..|before[p.target]|] == before[p.target];
    assert after[p.target][p.at..p.at + |p.commits|] == before[p.target][p.at..p.at + |p.commits|];
  }

  /** Everything published is still there and has its ledger row. */
  ghost predicate AllRecorded(published: seq<Publication>, remote: Remote, rows: seq<Row>) {
    forall i | 0 <= i < |published| ::
      InPlace(published[i], remote) && (published[i].name, published[i].target) in MergedPairs(rows)
  }

  lemma StillRecorded(published: seq<Publication>, before: Remote, rows: seq<Row>, after: Remote, more: seq<Row>)
    requires AllRecorded(published, before, rows) && Grew(before, after) && rows <= more
    ensures AllRecorded(published, after, more)
  {
    forall i | 0 <= i < |published| ensures InPlace(published[i], after) {
      StillInPlace(published[i], before, after);
    }
    assert forall r | r in rows :: r in more;
  }

  lemma NewlyRecorded(published: seq<Publication>, remote: Remote, rows: seq<Row>, row: Row)
    requires published != [] && AllRecorded(published[..|published| - 1], remote, rows)
    requires
      var last := published[|published| - 1];
      InPlace(last, remote) && last.name == row.branch && last.target == row.target
    ensures AllRecorded(published, remote, rows + [row])
    ensures MergedPairs(rows + [row]) == MergedPairs(rows) + {(row.branch, row.target)}
  {
    var n := |published| - 1;
    assert row in rows + [row];
    assert forall i | 0 <= i < n :: published[..n][i] == published[i];
    assert forall r :: r in rows + [row] <==> r in rows || r == row;
  }

  /** Local branches hold nothing the remote does not, the excepted one aside. */
  ghost predicate Behind(tips: map<string, History>, ready: set<string>, remote: Remote, except: set<string>) {
    forall t | t in ready :: t in tips && (t in remote && t !in except ==> tips[t] <= remote[t])
  }

  lemma StillBehind(tips: map<string, History>, ready: set<string>, before: Remote, after: Remote, except: set<string>)
    requires Behind(tips, ready, before, except) && Grew(before, after)
    ensures Behind(tips, ready, after, except)
  {
    forall t | t in ready && t in after && t !in except ensures tips[t] <= after[t] {
      assert tips[t] <= before[t];
      assert before[t] <= after[t];
    }
  }

  /** A commit that is one of `series` but for its sha. */
  ghost predicate IsCopy(c: Commit, series: History) {
    exists m | m in series :: c == m.(id := c.id)
  }

  /** Above `base`, the history holds copies of `series` and nothing else. */
  ghost predicate CopiesAbove(h: History, base: nat, series: History) {
    forall k | base <= k < |h| :: IsCopy(h[k], series)
  }

  /** Every one of `ours` is on the branch: itself, a copy of it, or a commit with the same patch. */
  ghost predicate HasAll(h: History, ours: History) {
    forall c | c in ours :: exists u :: u in h && Stands(u, c)
  }

  ghost predicate Stands(u: Commit, c: Commit) {
    u == c.(id := u.id) || SamePatch(u, c)
  }

  /** Above `base` there is nothing but copies of `series`, and all of it is on the branch. */
  ghost predicate OursAbove(h: History, base: nat, series: History) {
    CopiesAbove(h, base, series) && HasAll(h, series)
  }

  /** git rebase: commits already on top of `onto` stay; otherwise ours are replayed, less those `onto` has. */
  function Rebased(head: History, onto: History, ids: seq<nat>): History {
    if onto <= head then head else onto + Replayed(head[Shared(head, onto)..], onto, ids)
  }

  function Replayed(mine: History, onto: History, ids: seq<nat>): (replayed: History)
    ensures CopiesAbove(replayed, 0, mine)
  {
    if mine == [] then []
    else
      var c := mine[0];
      var rest := Replayed(mine[1..], onto, if ids == [] then [] else ids[1..]);
      assert forall m | m in mine[1..] :: m in mine;
      if exists u | u in onto :: SamePatch(u, c) then rest
      else
        var here := if ids == [] then c else c.(id := ids[0]);
        assert c in mine && here == c.(id := here.id);
        assert IsCopy(here, mine);
        [here] + rest
  }

  lemma SharedAtLeast(a: History, b: History, base: History)
    requires base <= a && base <= b
    ensures |base| <= Shared(a, b)
  {
    assert forall j | 0 <= j < |base| :: a[j] == base[j] && b[j] == base[j];
  }

  lemma AllOursOnTop(h: History, base: History)
    requires base <= h
    ensures OursAbove(h, |base|, h[|base|..])
  {
    var ours := h[|base|..];
    forall k | |base| <= k < |h| ensures IsCopy(h[k], ours) {
      assert ours[k - |base|] == h[k];
    }
    forall c | c in ours ensures exists u :: u in h && Stands(u, c) {
      StandsForItself(c);
      assert c in h && Stands(c, c);
    }
  }

  lemma {:induction false} ReplayedCarries(mine: History, onto: History, ids: seq<nat>, c: Commit)
    requires c in mine
    ensures exists u :: u in onto + Replayed(mine, onto, ids) && Stands(u, c)
    decreases |mine|
  {
    var first := mine[0];
    var more := if ids == [] then [] else ids[1..];
    if c == first {
      if u :| u in onto && SamePatch(u, c) {
        assert u in onto + Replayed(mine, onto, ids);
      } else {
        assert Replayed(mine, onto, ids)[0] in onto + Replayed(mine, onto, ids);
      }
    } else {
      ReplayedCarries(mine[1..], onto, more, c);
      var u :| u in onto + Replayed(mine[1..], onto, more) && Stands(u, c);
      assert u in onto + Replayed(mine, onto, ids);
    }
  }

  lemma StandsForItself(c: Commit)
    ensures Stands(c, c)
  {
  }

  lemma StandsForBoth(u: Commit, v: Commit, c: Commit)
    requires Stands(u, v) && Stands(v, c)
    ensures Stands(u, c)
  {
  }

  lemma StillThere(head: History, onto: History, ids: seq<nat>, c: Commit) returns (u: Commit)
    requires c in head && !(onto <= head)
    ensures u in Rebased(head, onto, ids) && Stands(u, c)
  {
    hide Replayed, Stands;
    var shared := Shared(head, onto);
    var mine := head[shared..];
    var k :| 0 <= k < |head| && head[k] == c;
    if k < shared {
      assert head[..shared][k] == onto[..shared][k];
      StandsForItself(c);
      u := c;
    } else {
      assert mine[k - shared] == c;
      ReplayedCarries(mine, onto, ids, c);
      u :| u in onto + Replayed(mine, onto, ids) && Stands(u, c);
    }
  }

  /** Rebasing drops nothing the branch rebased onto does not have already. */
  lemma RebasedCarries(head: History, onto: History, ids: seq<nat>, ours: History)
    requires HasAll(head, ours)
    ensures HasAll(Rebased(head, onto, ids), ours)
  {
    if !(onto <= head) {
      forall c | c in ours ensures exists u :: u in Rebased(head, onto, ids) && Stands(u, c) {
        var v :| v in head && Stands(v, c);
        var u := StillThere(head, onto, ids, v);
        StandsForBoth(u, v, c);
      }
    }
  }

  /** Rebasing our copies onto a branch that grew from `base` leaves our copies on top of it. */
  lemma RebasedKeeps(head: History, onto: History, base: History, series: History, ids: seq<nat>)
    requires base <= head && (onto <= base || base <= onto) && CopiesAbove(head, |base|, series)
    ensures
      var after := Rebased(head, onto, ids);
      var below := if onto <= base then base else onto;
      base <= below <= after && CopiesAbove(after, |below|, series)
  {
    if onto <= base {
      assert onto <= head;
    } else if onto <= head {
    } else {
      SharedAtLeast(head, onto, base);
      var mine := head[Shared(head, onto)..];
      var replayed := Replayed(mine, onto, ids);
      forall k | 0 <= k < |replayed| ensures IsCopy(replayed[k], series) {
        var m :| m in mine && replayed[k] == m.(id := replayed[k].id);
        var j :| 0 <= j < |mine| && mine[j] == m;
        assert IsCopy(head[Shared(head, onto) + j], series);
      }
    }
  }

  function PickedCommit(c: Commit, withTrailer: bool, id: nat, patch: Option<nat>): Commit {
    Commit(id, patch, c.subject, c.message, if withTrailer then c.trailers + {c.id} else c.trailers)
  }

  /** A commit one of `series` was picked as. */
  ghost predicate PickedFrom(c: Commit, series: History, withTrailer: bool) {
    exists m | m in series :: c == PickedCommit(m, withTrailer, c.id, c.patch)
  }

  ghost predicate PicksAbove(h: History, base: nat, series: History, withTrailer: bool) {
    forall k | base <= k < |h| :: PickedFrom(h[k], series, withTrailer)
  }

  /** `git cherry HEAD head base` marks the commit: the target has the same patch already. */
  predicate MarkedOn(prePick: History, head: History, mine: Commit) {
    !Holds(prePick, mine.id) && MarkedThere(prePick, head, mine)
  }

  /**
   What picking leaves on top of `prePick`, given git's answer for each commit so far; None once a
   pick conflicts. `series` are the commits to pick, the branch's own or as they landed on master.
   */
  function PicksOf(prePick: History, src: Source, series: History, withTrailer: bool,
      answers: seq<PickAnswer>): Option<History>
    requires |answers| <= |series| && |answers| <= |src.commits|
  {
    if answers == [] then Some([])
    else
      var n := |answers| - 1;
      match PicksOf(prePick, src, series, withTrailer, answers[..n])
      case None => None
      case Some(picked) =>
        if MarkedOn(prePick, src.head, src.commits[n]) then Some(picked)
        else match answers[n]
          case Applied(id, patch) => Some(picked + [PickedCommit(series[n], withTrailer, id, patch)])
          case CameUpEmpty => Some(picked)
          case Conflicted => None
  }

  lemma PicksOneMore(prePick: History, src: Source, series: History, withTrailer: bool, answers: seq<PickAnswer>,
      answer: PickAnswer)
    requires |answers| < |series| && |answers| < |src.commits|
    ensures PicksOf(prePick, src, series, withTrailer, answers + [answer]) ==
      match PicksOf(prePick, src, series, withTrailer, answers)
      case None => None
      case Some(picked) =>
        if MarkedOn(prePick, src.head, src.commits[|answers|]) then Some(picked)
        else match answer
          case Applied(id, patch) => Some(picked + [PickedCommit(series[|answers|], withTrailer, id, patch)])
          case CameUpEmpty => Some(picked)
          case Conflicted => None
  {
    assert (answers + [answer])[..|answers|] == answers;
  }

  lemma NothingPicked(prePick: History, src: Source, series: History, withTrailer: bool)
    ensures PicksOf(prePick, src, series, withTrailer, []) == Some([])
  {
  }

  lemma {:induction false} PicksAreOnTop(prePick: History, src: Source, series: History, withTrailer: bool,
      answers: seq<PickAnswer>)
    requires |answers| <= |series| && |answers| <= |src.commits|
    requires PicksOf(prePick, src, series, withTrailer, answers).Some?
    ensures PicksAbove(prePick + PicksOf(prePick, src, series, withTrailer, answers).value, |prePick|, series,
      withTrailer)
    decreases |answers|
  {
    hide MarkedOn;
    if answers != [] {
      var n := |answers| - 1;
      PicksAreOnTop(prePick, src, series, withTrailer, answers[..n]);
      var before := prePick + PicksOf(prePick, src, series, withTrailer, answers[..n]).value;
      var after := prePick + PicksOf(prePick, src, series, withTrailer, answers).value;
      forall k | |prePick| <= k < |after| ensures PickedFrom(after[k], series, withTrailer) {
        if k < |before| {
          assert after[k] == before[k];
        } else {
          assert series[n] in series;
        }
      }
    }
  }

  /** The target has the commit's patch, under another id and from elsewhere than the branch. */
  ghost predicate Elsewhere(prePick: History, head: History, c: Commit) {
    && (forall j | 0 <= j < |prePick| :: prePick[j].id != c.id)
    && exists u | u in prePick :: u.patch.Some? && u.patch == c.patch && forall k | 0 <= k < |head| ::
      head[k].id != u.id
  }

  lemma MarkedIsElsewhere(prePick: History, head: History, c: Commit)
    ensures MarkedOn(prePick, head, c) <==> Elsewhere(prePick, head, c)
  {
  }

  /** The commit gets a pick of its own: not on the target already, and not empty there. */
  ghost predicate GetsPicked(prePick: History, src: Source, answers: seq<PickAnswer>, i: nat)
    requires i < |answers| <= |src.commits|
  {
    !Elsewhere(prePick, src.head, src.commits[i]) && answers[i].Applied?
  }

  ghost function PickedBefore(prePick: History, src: Source, answers: seq<PickAnswer>, i: nat): nat
    requires i <= |answers| <= |src.commits|
  {
    if i == 0 then 0
    else
      var before := PickedBefore(prePick, src, answers, i - 1);
      before + if GetsPicked(prePick, src, answers, i - 1) then 1 else 0
  }

  lemma {:induction false} PickedBeforeFront(prePick: History, src: Source, answers: seq<PickAnswer>, n: nat, i: nat)
    requires i <= n <= |answers| <= |src.commits|
    ensures PickedBefore(prePick, src, answers[..n], i) == PickedBefore(prePick, src, answers, i)
    decreases i
  {
    hide Elsewhere;
    if i > 0 {
      PickedBeforeFront(prePick, src, answers, n, i - 1);
    }
  }

  /** Without a conflict each commit that gets picked is there, behind those before it, and nothing else is. */
  lemma {:induction false} PicksInOrder(prePick: History, src: Source, series: History, withTrailer: bool,
      answers: seq<PickAnswer>)
    requires |answers| <= |series| && |answers| <= |src.commits|
    requires PicksOf(prePick, src, series, withTrailer, answers).Some?
    ensures
      var picked := PicksOf(prePick, src, series, withTrailer, answers).value;
      && |picked| == PickedBefore(prePick, src, answers, |answers|)
      && forall i | 0 <= i < |answers| && GetsPicked(prePick, src, answers, i) ::
           && PickedBefore(prePick, src, answers, i) < |picked|
           && var c, pick := series[i], picked[PickedBefore(prePick, src, answers, i)];
              && pick.id == answers[i].id && pick.patch == answers[i].patch
              && pick.subject == c.subject && pick.message == c.message
              && pick.trailers == (if withTrailer then c.trailers + {c.id} else c.trailers)
    decreases |answers|
  {
    hide MarkedOn, Elsewhere;
    if answers != [] {
      var n := |answers| - 1;
      MarkedIsElsewhere(prePick, src.head, src.commits[n]);
      PicksInOrder(prePick, src, series, withTrailer, answers[..n]);
      PickedBeforeFront(prePick, src, answers, n, n);
      forall i | 0 <= i < n {
        PickedBeforeFront(prePick, src, answers, n, i);
      }
    }
  }

  /** Picking fails exactly when a commit that is not there already conflicts. */
  lemma {:induction false} ConflictsExactlyWhen(prePick: History, src: Source, series: History, withTrailer: bool,
      answers: seq<PickAnswer>)
    requires |answers| <= |series| && |answers| <= |src.commits|
    ensures PicksOf(prePick, src, series, withTrailer, answers) == None <==>
      exists i | 0 <= i < |answers| :: !Elsewhere(prePick, src.head, src.commits[i]) && answers[i].Conflicted?
    decreases |answers|
  {
    hide MarkedOn, Elsewhere;
    if answers != [] {
      var n := |answers| - 1;
      ConflictsExactlyWhen(prePick, src, series, withTrailer, answers[..n]);
      MarkedIsElsewhere(prePick, src.head, src.commits[n]);
      assert forall i | 0 <= i < n :: answers[..n][i] == answers[i];
    }
  }

  lemma CopiesOfPicks(h: History, created: History, series: History, withTrailer: bool)
    requires CopiesAbove(h, 0, created) && PicksAbove(created, 0, series, withTrailer)
    ensures PicksAbove(h, 0, series, withTrailer)
  {
    forall k | 0 <= k < |h| ensures PickedFrom(h[k], series, withTrailer) {
      var m :| m in created && h[k] == m.(id := h[k].id);
      var j :| 0 <= j < |created| && created[j] == m;
      assert PickedFrom(created[j], series, withTrailer);
    }
  }

  /** The commits that are picked, given the series as it landed on master (or nothing). */
  function ToPick(series: History, onMaster: History): History {
    if onMaster == [] then series else if |onMaster| <= |series| then onMaster else onMaster[..|series|]
  }

  /** The upstream commit the ledger will remember: the last one found, if any. */
  function LastId(landed: History): Option<nat> {
    if landed == [] then None else Some(landed[|landed| - 1].id)
  }

  // ------------------------------------------------------------ the review gate

  datatype ReviewVerdict = VerdictOk | Questionable | NoVerdict

  function MayPrompt(cfg: Config): bool {
    !(cfg.assumeYes || cfg.dryRun || cfg.operatorReview || cfg.jobs > 1)
  }

  /** sanity_check(): what the gate lets through, given claude's and the human's answers. */
  function SanityCheck(cfg: Config, alive: bool, verdict: ReviewVerdict, human: bool): bool {
    if !cfg.sanity then true
    else if !alive then
      if cfg.operatorReview && !cfg.dryRun then true
      else if !MayPrompt(cfg) && !cfg.dryRun then false
      else if cfg.dryRun then false
      else if cfg.assumeYes then false
      else human
    else match verdict
      case VerdictOk => true
      case Questionable => if cfg.dryRun || !MayPrompt(cfg) then false else if cfg.assumeYes then false else human
      case NoVerdict => if cfg.dryRun || !MayPrompt(cfg) then false else if cfg.assumeYes then false else human
  }

  /** Nothing passes but a clean verdict, a human's yes where asking is allowed, or an approval given up front. */
  lemma SanityNeedsAYes(cfg: Config, alive: bool, verdict: ReviewVerdict, human: bool)
    ensures SanityCheck(cfg, alive, verdict, human) <==>
      || !cfg.sanity
      || (alive && verdict == VerdictOk)
      || (human && MayPrompt(cfg))
      || (!alive && cfg.operatorReview && !cfg.dryRun)
  {
  }

  /** GitHub's tick can replace a local build only for this change, green, on the branch it was cut from. */
  predicate CiStandsIn(cfg: Config, src: Source, target: string) {
    cfg.ciShortcut && src.ciGreen && src.ciCovers && src.baseBranch == target
  }

  /** One backport: what it picked and what git, claude, the operator and sbt answered on the way. */
  datatype Trial = Trial(
    name: string,
    target: string,
    series: History,
    withTrailer: bool,
    there: bool,
    picks: seq<PickAnswer>,
    gate: Gate,
    landed: History,
    outcome: Outcome)

  /** The answers between the picks and the ledger: the review's, each build's, each round of the push. */
  datatype Gate = Gate(alive: bool, verdict: ReviewVerdict, human: bool, builds: seq<BuildAnswer>, rounds: seq<Round>)

  /** No review is asked for, or claude, the operator or an approval given up front says yes. */
  ghost predicate PassesReview(cfg: Config, g: Gate) {
    || !cfg.sanity
    || (g.alive && g.verdict == VerdictOk)
    || (g.human && !cfg.assumeYes && !cfg.dryRun && !cfg.operatorReview && cfg.jobs <= 1)
    || (!g.alive && cfg.operatorReview && !cfg.dryRun)
  }

  /** A build is asked for, and CI was not green for this very change, on the branch it is cut from. */
  ghost predicate MustBuild(cfg: Config, src: Source, target: string) {
    cfg.doCompile && !(cfg.ciShortcut && src.ciGreen && src.ciCovers && src.baseBranch == target)
  }

  /** Reviewed and built, as far as either is asked for. */
  ghost predicate Clears(cfg: Config, src: Source, target: string, g: Gate) {
    PassesReview(cfg, g) && (MustBuild(cfg, src, target) ==> BuildOk in g.builds)
  }

  /** How a picked series ends is what the answers say: which refusal, or none. */
  ghost predicate Gated(cfg: Config, src: Source, target: string, g: Gate, outcome: Outcome) {
    && (outcome == HeldForReview <==> !PassesReview(cfg, g))
    && (outcome == BuildFailed <==> PassesReview(cfg, g) && MustBuild(cfg, src, target) && BuildOk !in g.builds)
    && (outcome == PushFailed ==>
          Clears(cfg, src, target, g) && cfg.doPush && PushLost(g.rounds) && !Calm(g.rounds))
    && (!GaveUp(outcome) ==> Clears(cfg, src, target, g))
  }

  /** How a backport ends is what the answers say, from the checkout to the push. */
  ghost predicate AsAnswered(cfg: Config, src: Source, start: History, t: Trial) {
    && (t.outcome == CheckoutFailed <==> !t.there)
    && |t.picks| <= |t.series| && |t.picks| <= |src.commits|
    && (t.there ==>
          var picked := PicksOf(start, src, t.series, t.withTrailer, t.picks);
          && (t.outcome == Conflict <==> picked == None)
          && (t.outcome == NothingNew <==> picked == Some([]))
          && (picked.Some? ==> |t.picks| == |t.series| || |t.picks| == |src.commits|)
          && (picked.Some? && picked.value != [] ==> Gated(cfg, src, t.target, t.gate, t.outcome)))
  }

  /** What a finished trial picked: nothing after a conflict. */
  ghost function PickedIn(src: Source, start: History, t: Trial): History
    requires |t.picks| <= |t.series| && |t.picks| <= |src.commits|
  {
    match PicksOf(start, src, t.series, t.withTrailer, t.picks)
    case None => []
    case Some(picked) => picked
  }

  /** The series as it is on master, once these backports of a branch have been through. */
  ghost function OnMasterAfter(found: History, trials: seq<Trial>): History {
    if trials == [] then found
    else
      var last := trials[|trials| - 1];
      if last.target == "master" then last.landed else OnMasterAfter(found, trials[..|trials| - 1])
  }

  /** Each backport picks the branch's commits as they are on master by then, and marks where they came from. */
  ghost predicate PickedFromMaster(commits: History, found: History, trials: seq<Trial>) {
    forall k | 0 <= k < |trials| ::
      var onMaster := OnMasterAfter(found, trials[..k]);
      trials[k].series == ToPick(commits, onMaster) && (trials[k].withTrailer <==> onMaster != [])
  }

  lemma {:induction false} OnMasterTwice(found: History, a: seq<Trial>, b: seq<Trial>)
    ensures OnMasterAfter(found, a + b) == OnMasterAfter(OnMasterAfter(found, a), b)
    decreases |b|
  {
    if b == [] {
      assert a + b == a;
    } else {
      OnMasterTwice(found, a, b[..|b| - 1]);
      assert (a + b)[..|a + b| - 1] == a + b[..|b| - 1];
    }
  }

  /** What the record says of backports that were tried. */
  function Tried(events: seq<Event>): seq<Event> {
    if events == [] then []
    else
      var e := events[|events| - 1];
      Tried(events[..|events| - 1]) + if e.outcome == NoSuchTarget then [] else [e]
  }

  function EventsOf(trials: seq<Trial>): seq<Event> {
    seq(|trials|, i requires 0 <= i < |trials| => Event(trials[i].name, trials[i].target, trials[i].outcome))
  }

  /** The record holds the end of every backport tried, in order, and otherwise targets that could not be had. */
  ghost predicate TrialsNoted(events: seq<Event>, trials: seq<Trial>, upstream: set<string>, stuck: set<string>) {
    && Tried(events) == EventsOf(trials)
    && forall e | e in events && e.outcome == NoSuchTarget :: e.target !in upstream || e.target in stuck
  }

  lemma {:induction false} TriedSum(a: seq<Event>, b: seq<Event>)
    ensures Tried(a + b) == Tried(a) + Tried(b)
    decreases |b|
  {
    if b == [] {
      assert a + b == a;
    } else {
      TriedSum(a, b[..|b| - 1]);
      assert (a + b)[..|a + b| - 1] == a + b[..|b| - 1];
    }
  }

  lemma TrialsNotedTwice(from: nat, seen: seq<Event>, events: seq<Event>, start: seq<Trial>, tried: seq<Trial>,
                         trials: seq<Trial>, upstream: set<string>, stuck: set<string>, more: set<string>)
    requires from <= |seen| && seen <= events && start <= tried <= trials
    requires TrialsNoted(seen[from..], tried[|start|..], upstream, stuck)
    requires TrialsNoted(events[|seen|..], trials[|tried|..], upstream, more)
    ensures TrialsNoted(events[from..], trials[|start|..], upstream, stuck + more)
  {
    assert events[from..] == seen[from..] + events[|seen|..];
    assert trials[|start|..] == tried[|start|..] + trials[|tried|..];
    TriedSum(seen[from..], events[|seen|..]);
  }

  lemma OneTrialNoted(e: Event, trials: seq<Trial>, upstream: set<string>, stuck: set<string>)
    requires if e.outcome == NoSuchTarget then trials == [] && (e.target !in upstream || e.target in stuck)
      else |trials| == 1 && e == Event(trials[0].name, trials[0].target, trials[0].outcome)
    ensures TrialsNoted([e], trials, upstream, stuck)
  {
    assert [e][..0] == [];
    assert Tried([e]) == Tried([]) + if e.outcome == NoSuchTarget then [] else [e];
  }

  lemma NothingTried(commits: History, found: History)
    ensures PickedFromMaster(commits, found, []) && OnMasterAfter(found, []) == found
  {
  }

  lemma TriedOneMore(commits: History, found: History, trials: seq<Trial>)
    requires |trials| == 1
    requires trials[0].series == ToPick(commits, found) && (trials[0].withTrailer <==> found != [])
    ensures PickedFromMaster(commits, found, trials)
    ensures OnMasterAfter(found, trials) == if trials[0].target == "master" then trials[0].landed else found
  {
    assert trials[..0] == [];
  }

  /** The trials from `start` on, seen in two parts. */
  lemma TriedTwice(commits: History, found: History, start: seq<Trial>, seen: seq<Trial>, trials: seq<Trial>)
    requires start <= seen <= trials && PickedFromMaster(commits, found, seen[|start|..])
    requires PickedFromMaster(commits, OnMasterAfter(found, seen[|start|..]), trials[|seen|..])
    ensures start <= trials && PickedFromMaster(commits, found, trials[|start|..])
    ensures OnMasterAfter(found, trials[|start|..]) ==
      OnMasterAfter(OnMasterAfter(found, seen[|start|..]), trials[|seen|..])
  {
    hide PickedFromMaster, OnMasterAfter;
    assert trials[|start|..] == seen[|start|..] + trials[|seen|..];
    OnMasterTwice(found, seen[|start|..], trials[|seen|..]);
    PickedFromMasterTwice(commits, found, seen[|start|..], trials[|seen|..]);
  }

  lemma PickedFromMasterTwice(commits: History, found: History, a: seq<Trial>, b: seq<Trial>)
    requires PickedFromMaster(commits, found, a) && PickedFromMaster(commits, OnMasterAfter(found, a), b)
    ensures PickedFromMaster(commits, found, a + b)
  {
    hide ToPick, OnMasterAfter;
    var both := a + b;
    forall k | 0 <= k < |both|
      ensures
        var onMaster := OnMasterAfter(found, both[..k]);
        both[k].series == ToPick(commits, onMaster) && (both[k].withTrailer <==> onMaster != [])
    {
      if k < |a| {
        assert both[..k] == a[..k];
      } else {
        assert both[..k] == a + b[..k - |a|];
        OnMasterTwice(found, a, b[..k - |a|]);
      }
    }
  }

  /** master before the release branches, which keep their order. */
  function MasterFirst(targets: seq<string>): seq<string> {
    (if "master" in targets then ["master"] else []) + Releases(targets)
  }

  function Releases(targets: seq<string>): (rest: seq<string>)
    ensures forall t :: t in rest <==> t in targets && t != "master"
  {
    if targets == [] then []
    else if targets[0] == "master" then Releases(targets[1..])
    else [targets[0]] + Releases(targets[1..])
  }

  lemma {:induction false} ReleasesDistinct(targets: seq<string>)
    requires Distinct(targets)
    ensures Distinct(Releases(targets))
  {
    if targets != [] {
      assert targets[0] !in targets[1..];
      ReleasesDistinct(targets[1..]);
    }
  }

  /** The release branches keep the order they are given in: what comes first stays in front. */
  lemma {:induction false} ReleasesInOrder(a: seq<string>, b: seq<string>)
    ensures Releases(a + b) == Releases(a) + Releases(b)
    ensures forall t :: Releases([t]) == if t == "master" then [] else [t]
  {
    assert forall t: string :: [t][1..] == [];
    if a == [] {
      assert a + b == b;
    } else {
      assert (a + b)[1..] == a[1..] + b;
      ReleasesInOrder(a[1..], b);
    }
  }

  lemma MasterFirstMeaning(targets: seq<string>)
    requires Distinct(targets)
    ensures Distinct(MasterFirst(targets))
    ensures forall t :: t in MasterFirst(targets) <==> t in targets
    ensures forall i | 0 < i < |MasterFirst(targets)| :: MasterFirst(targets)[i] != "master"
  {
    ReleasesDistinct(targets);
    assert forall i | 0 <= i < |Releases(targets)| :: Releases(targets)[i] in Releases(targets);
  }

  // ------------------------------------------------------------ the state of a run

  datatype State = State(
    refs: Refs,
    remote: Remote,
    tips: map<string, History>,
    head: History,
    ready: set<string>,
    ledger: seq<Row>,
    merged: set<(string, string)>,
    published: seq<Publication>,
    trials: seq<Trial>,
    trailers: set<nat>)

  /**
   Between two backports: upstream's branches mirror the push remote's, perhaps late; local
   branches (but `except`) hold nothing a pushing run's remote does not; `recorded` is still
   on the remote and has its ledger rows.
   */
  ghost predicate Steady(cfg: Config, detached: bool, w: State, recorded: seq<Publication>, except: set<string>) {
    && (cfg.dryRun ==> !cfg.doPush && !cfg.doCompile)
    && (forall t | t in w.refs.upstream :: t in w.remote && w.refs.upstream[t] <= w.remote[t])
    && (forall t | t in w.ready :: t in w.remote && t in w.refs.upstream)
    && (forall id | id in w.refs.objects :: w.refs.objects[id].id == id)
    && (!detached ==> Behind(w.tips, w.ready, if cfg.doPush then w.remote else map[], except))
    && AllRecorded(recorded, w.remote, w.ledger)
    && w.merged <= MergedPairs(w.ledger)
    && (!cfg.ignoreLedger ==> w.merged == MergedPairs(w.ledger))
  }

  ghost predicate Sound(cfg: Config, detached: bool, w: State) {
    Steady(cfg, detached, w, w.published, {})
  }

  /** Where a backport onto this target starts from. */
  ghost function Start(detached: bool, w: State, target: string): History {
    if detached then (if target in w.refs.upstream then w.refs.upstream[target] else [])
    else if target in w.tips then w.tips[target] else []
  }

  /** A series has been picked onto the target, on top of `prePick`, and nothing else has happened. */
  ghost predicate Picked(cfg: Config, detached: bool, w: State, target: string, prePick: History) {
    && Steady(cfg, detached, w, w.published, {target}) && target in w.ready && target in w.remote
    && prePick <= w.head && |prePick| < |w.head|
    && (cfg.doPush ==> prePick <= w.remote[target])
    && (!detached ==> target in w.tips && w.tips[target] == w.head)
  }

  ghost function Ids(series: History): set<nat> {
    set c | c in series :: c.id
  }

  ghost predicate SameBooks(w: State, w': State) {
    w'.ledger == w.ledger && w'.merged == w.merged && w'.published == w.published
  }

  /** One publication went out over `before`, and has its ledger row. */
  ghost predicate OneMore(w: State, w': State, src: Source, target: string, landed: History) {
    && w'.ledger == w.ledger +
         [Row(src.name, target, if landed == [] then None else Some(landed[|landed| - 1].id), src.head)]
    && w'.merged == w.merged + {(src.name, target)}
    && |w'.published| == |w.published| + 1 && w'.published[..|w.published|] == w.published
    && target in w'.remote && (forall c | c in landed :: c in w'.remote[target])
    && var last := w'.published[|w.published|];
       && last.name == src.name && last.target == target && InPlace(last, w'.remote)
       && target in w.remote && |w.remote[target]| <= last.at
  }

  ghost predicate OthersUntouched(w: State, w': State) {
    && Grew(w.remote, w'.remote) && w'.ready == w.ready && w'.refs.upstream.Keys == w.refs.upstream.Keys
    && w'.refs == w.refs.(upstream := w'.refs.upstream)
  }

  /** From the review gate on: what becomes of a series picked on top of `prePick`. */
  ghost predicate PublishStep(cfg: Config, detached: bool, w: State, w': State, src: Source, target: string,
                              prePick: History, landed: History, outcome: Outcome, gate: Gate)
  {
    && OthersUntouched(w, w') && w'.trailers == w.trailers && w'.trials == w.trials
    && Gated(cfg, src, target, gate, outcome)
    && (outcome == HeldForReview || outcome == BuildFailed || outcome == PushFailed
        || outcome == (if cfg.doPush then Pushed else WouldPush))
    && (GaveUp(outcome) ==>
          && landed == [] && w'.head == prePick
          && w'.tips == (if detached then w.tips else w.tips[target := prePick]))
    && (outcome != Pushed ==> SameBooks(w, w'))
    && (outcome == WouldPush ==> w'.head == w.head)
    && (!GaveUp(outcome) ==> |prePick| <= |w.head| && landed == LandedOn(w'.head, w.head[|prePick|..], 100))
    && (outcome == Pushed ==>
          && OneMore(w, w', src, target, landed)
          && w'.head == w'.remote[target] && HasAll(w'.head, w.head[|prePick|..])
          && CopiesAbove(w'.published[|w.published|].commits, 0, w.head[|prePick|..]))
  }

  /** A push: it failed and left nothing behind, was not asked for, or arrived. */
  ghost predicate PushStep(cfg: Config, detached: bool, w: State, w': State, src: Source, target: string,
                           prePick: History, pushed: bool)
  {
    && OthersUntouched(w, w')
    && w'.trailers == w.trailers && w'.trials == w.trials && w'.ledger == w.ledger && w'.merged == w.merged
    && (!pushed ==> w'.head == prePick)
    && w'.tips == (if detached then w.tips else w.tips[target := w'.head])
    && (!cfg.doPush ==> pushed && w'.head == w.head)
    && (!pushed || !cfg.doPush ==> w'.published == w.published)
    && (pushed && cfg.doPush ==>
          && |w'.published| == |w.published| + 1 && w'.published[..|w.published|] == w.published
          && target in w.remote && target in w'.remote && w'.remote[target] == w'.head
          && |prePick| <= |w.head| && HasAll(w'.remote[target], w.head[|prePick|..])
          && var last := w'.published[|w.published|];
             && last.name == src.name && last.target == target && |w.remote[target]| <= last.at
             && InPlace(last, w'.remote) && CopiesAbove(last.commits, 0, w.head[|prePick|..]))
  }

  /** One more trial: of this pair, ended as answered, and a push that went out put just its picks on the target. */
  ghost predicate TriedOnce(cfg: Config, w: State, w': State, src: Source, target: string, start: History,
                            series: History, withTrailer: bool, landed: History, outcome: Outcome)
  {
    && |w'.trials| == |w.trials| + 1 && w.trials <= w'.trials
    && var t := w'.trials[|w.trials|];
       && t.name == src.name && t.target == target && t.series == series && t.withTrailer == withTrailer
       && t.landed == landed && t.outcome == outcome && AsAnswered(cfg, src, start, t)
       && (outcome == WouldPush ==> w'.head == start + PickedIn(src, start, t))
       && (!GaveUp(outcome) ==> landed == LandedOn(w'.head, PickedIn(src, start, t), 100))
       && (outcome == Pushed ==>
             && target in w'.remote && w'.head == w'.remote[target] && HasAll(w'.head, PickedIn(src, start, t))
             && w'.published != []
             && CopiesAbove(w'.published[|w'.published| - 1].commits, 0, PickedIn(src, start, t)))
  }

  /**
   One backport. Nothing but a push that went through leaves a trace: every other exit has the
   local target, HEAD, the ledger and the publications as they were. How it ended is what git,
   claude, the operator and sbt answered. A push that went through was reviewed, was built or
   covered by CI, put every pick of `series` on the target and nothing else, and has its ledger
   row, with the last of ours on the target.
   */
  ghost predicate PairStep(cfg: Config, detached: bool, w: State, w': State, src: Source, target: string,
                           series: History, withTrailer: bool, landed: History, outcome: Outcome)
  {
    && OthersUntouched(w, w')
    && w.trailers <= w'.trailers && w'.trailers <= w.trailers + (if withTrailer then Ids(series) else {})
    && (GaveUp(outcome) || outcome == (if cfg.doPush then Pushed else WouldPush))
    && (GaveUp(outcome) ==>
          && landed == [] && w'.tips == w.tips
          && w'.head == (if outcome == CheckoutFailed then w.head else Start(detached, w, target)))
    && (outcome != Pushed ==> SameBooks(w, w'))
    && w.trials <= w'.trials
    && TriedOnce(cfg, w, w', src, target, Start(detached, w, target), series, withTrailer, landed, outcome)
    && (outcome == Pushed ==>
          && OneMore(w, w', src, target, landed)
          && PicksAbove(w'.published[|w.published|].commits, 0, series, withTrailer))
  }

  /** Picking and then publishing is one backport. */
  lemma PickedThenPublished(cfg: Config, detached: bool, w: State, picked: State, published: State, w': State,
                            src: Source, t: Trial)
    requires w.head == Start(detached, w, t.target) && (!detached ==> t.target in w.tips)
    requires picked == w.(head := picked.head, trailers := picked.trailers,
                          tips := if detached then w.tips else w.tips[t.target := picked.head])
    requires t.name == src.name && t.there && |t.picks| <= |t.series| && |t.picks| <= |src.commits|
    requires |t.picks| == |t.series| || |t.picks| == |src.commits|
    requires PicksOf(w.head, src, t.series, t.withTrailer, t.picks).Some?
    requires PickedIn(src, w.head, t) != [] && picked.head == w.head + PickedIn(src, w.head, t)
    requires w.trailers <= picked.trailers <= w.trailers + if t.withTrailer then Ids(t.series) else {}
    requires PublishStep(cfg, detached, picked, published, src, t.target, w.head, t.landed, t.outcome, t.gate)
    requires w' == published.(trials := w.trials + [t])
    ensures PairStep(cfg, detached, w, w', src, t.target, t.series, t.withTrailer, t.landed, t.outcome)
  {
    hide PicksOf, Gated, LandedOn, HasAll, CopiesAbove, PicksAbove, AsAnswered, InPlace, PickedIn, TriedOnce, LastId,
      Grew;
    assert !detached ==> w.tips[t.target := picked.head][t.target := w.head] == w.tips;
    assert picked.head[|w.head|..] == PickedIn(src, w.head, t);
    PublishedIsTried(cfg, detached, w, picked, published, w', src, t);
    if t.outcome == Pushed {
      CopiesOfAnswers(w'.published[|w.published|].commits, src, w.head, t);
    }
  }

  lemma PublishedIsTried(cfg: Config, detached: bool, w: State, picked: State, published: State, w': State,
                         src: Source, t: Trial)
    requires t.name == src.name && t.there && |t.picks| <= |t.series| && |t.picks| <= |src.commits|
    requires |t.picks| == |t.series| || |t.picks| == |src.commits|
    requires PicksOf(w.head, src, t.series, t.withTrailer, t.picks).Some?
    requires PickedIn(src, w.head, t) != [] && picked.head == w.head + PickedIn(src, w.head, t)
    requires picked.head[|w.head|..] == PickedIn(src, w.head, t)
    requires PublishStep(cfg, detached, picked, published, src, t.target, w.head, t.landed, t.outcome, t.gate)
    requires w' == published.(trials := w.trials + [t])
    ensures TriedOnce(cfg, w, w', src, t.target, w.head, t.series, t.withTrailer, t.landed, t.outcome)
  {
    hide PicksOf, Gated, LandedOn, HasAll, CopiesAbove, AsAnswered, InPlace, PickedIn, LastId, OthersUntouched,
      SameBooks;
    GatedIsAnswered(cfg, src, w.head, t);
  }

  lemma GatedIsAnswered(cfg: Config, src: Source, start: History, t: Trial)
    requires t.there && |t.picks| <= |t.series| && |t.picks| <= |src.commits|
    requires |t.picks| == |t.series| || |t.picks| == |src.commits|
    requires PicksOf(start, src, t.series, t.withTrailer, t.picks).Some? && PickedIn(src, start, t) != []
    requires Gated(cfg, src, t.target, t.gate, t.outcome)
    requires t.outcome != CheckoutFailed && t.outcome != Conflict && t.outcome != NothingNew
    ensures AsAnswered(cfg, src, start, t)
  {
    hide PicksOf, Gated;
  }

  lemma CopiesOfAnswers(h: History, src: Source, start: History, t: Trial)
    requires |t.picks| <= |t.series| && |t.picks| <= |src.commits|
    requires PicksOf(start, src, t.series, t.withTrailer, t.picks).Some?
    requires CopiesAbove(h, 0, PickedIn(src, start, t))
    ensures PicksAbove(h, 0, t.series, t.withTrailer)
  {
    hide PicksOf, CopiesAbove, PickedFrom;
    var created := PickedIn(src, start, t);
    PicksAreOnTop(start, src, t.series, t.withTrailer, t.picks);
    forall k | 0 <= k < |created| ensures PickedFrom(created[k], t.series, t.withTrailer) {
      assert created[k] == (start + created)[|start| + k];
    }
    CopiesOfPicks(h, created, t.series, t.withTrailer);
  }

  /** A backport that stopped at the checkout or while picking. */
  lemma NothingPublished(cfg: Config, detached: bool, w: State, w': State, src: Source, t: Trial)
    requires t.name == src.name && t.landed == [] && AsAnswered(cfg, src, Start(detached, w, t.target), t)
    requires t.outcome == CheckoutFailed || t.outcome == Conflict || t.outcome == NothingNew
    requires w' == w.(head := if t.outcome == CheckoutFailed then w.head else Start(detached, w, t.target),
                      trailers := w'.trailers, trials := w.trials + [t])
    requires w.trailers <= w'.trailers <= w.trailers + if t.withTrailer then Ids(t.series) else {}
    ensures PairStep(cfg, detached, w, w', src, t.target, t.series, t.withTrailer, t.landed, t.outcome)
  {
    hide PicksOf, AsAnswered;
  }

  /** A failed or finished push leaves things steady again. */
  lemma SteadyAgain(cfg: Config, detached: bool, w: State, w': State, target: string, to: History)
    requires Steady(cfg, detached, w, w.published, {target}) && target in w.ready
    requires w' == w.(refs := w'.refs, remote := w'.remote, head := w'.head, published := w'.published,
                      tips := if detached then w.tips else w.tips[target := to])
    requires Grew(w.remote, w'.remote) && w'.refs == w.refs.(upstream := w'.refs.upstream)
    requires forall t | t in w'.refs.upstream :: t in w'.remote && w'.refs.upstream[t] <= w'.remote[t]
    requires forall t | t in w'.ready :: t in w'.remote && t in w'.refs.upstream
    requires cfg.doPush ==> target in w'.remote && to <= w'.remote[target]
    ensures Steady(cfg, detached, w', w.published, {})
  {
    StillRecorded(w.published, w.remote, w.ledger, w'.remote, w.ledger);
    if !detached && cfg.doPush {
      StillBehind(w.tips, w.ready, w.remote, w'.remote, {target});
    }
  }

  /** Where HEAD was before the checkout makes no difference to a backport that got past it. */
  lemma HeadForgotten(cfg: Config, detached: bool, w: State, head: History, w': State, src: Source, target: string,
                      series: History, withTrailer: bool, landed: History, outcome: Outcome)
    requires PairStep(cfg, detached, w.(head := head), w', src, target, series, withTrailer, landed, outcome)
    requires outcome != CheckoutFailed
    ensures PairStep(cfg, detached, w, w', src, target, series, withTrailer, landed, outcome)
  {
    hide AsAnswered, PickedIn, HasAll, CopiesAbove, PicksAbove, Ids, InPlace, LandedOn;
  }

  lemma StillCleared(cfg: Config, src: Source, target: string, gate: Gate, rounds: seq<Round>)
    requires Clears(cfg, src, target, gate)
    ensures Clears(cfg, src, target, gate.(rounds := rounds))
  {
  }

  lemma SoundWhateverTried(cfg: Config, detached: bool, w: State, w': State)
    requires Sound(cfg, detached, w) && w' == w.(head := w'.head, trials := w'.trials, trailers := w'.trailers)
    ensures Sound(cfg, detached, w')
  {
  }

  /** A target put on the upstream tip is ready. */
  lemma TargetReady(cfg: Config, detached: bool, w: State, target: string, head: History)
    requires Sound(cfg, detached, w) && target in w.refs.upstream
    ensures Sound(cfg, detached, w.(head := head, ready := w.ready + {target},
      tips := if detached then w.tips else w.tips[target := w.refs.upstream[target]]))
  {
  }

  lemma NotPushed(cfg: Config, detached: bool, w: State, w': State, src: Source, target: string, prePick: History,
                  gate: Gate)
    requires Clears(cfg, src, target, gate) && PushLost(gate.rounds) && !Calm(gate.rounds)
    requires Steady(cfg, detached, w', w.published, {}) && PushStep(cfg, detached, w, w', src, target, prePick, false)
    ensures Sound(cfg, detached, w') && PublishStep(cfg, detached, w, w', src, target, prePick, [], PushFailed, gate)
  {
  }

  /** A push that arrived, with its ledger row, is a whole publication. */
  lemma RecordedAgain(cfg: Config, detached: bool, w: State, arrived: State, w': State, src: Source, target: string,
                      prePick: History, landed: History, gate: Gate)
    requires PushStep(cfg, detached, w, arrived, src, target, prePick, true)
    requires Steady(cfg, detached, arrived, w.published, {}) && Clears(cfg, src, target, gate)
    requires |prePick| <= |w.head| && landed == LandedOn(arrived.head, w.head[|prePick|..], 100)
    requires forall c | c in landed :: c in arrived.head
    requires w' == if cfg.doPush then Noting(arrived, src, target, landed) else arrived
    ensures Sound(cfg, detached, w')
    ensures PublishStep(cfg, detached, w, w', src, target, prePick, landed,
                        if cfg.doPush then Pushed else WouldPush, gate)
  {
    hide LandedOn, HasAll, CopiesAbove, Clears;
    ClearedIsGated(cfg, src, target, gate);
    hide Gated;
    if cfg.doPush {
      RecordedIsSound(cfg, detached, w.published, arrived, src, target, landed);
    }
  }

  /** The books with one more merge in them. */
  function Noting(w: State, src: Source, target: string, landed: History): State {
    w.(ledger := w.ledger + [Row(src.name, target, LastId(landed), src.head)],
      merged := w.merged + {(src.name, target)})
  }

  lemma ClearedIsGated(cfg: Config, src: Source, target: string, gate: Gate)
    requires Clears(cfg, src, target, gate)
    ensures Gated(cfg, src, target, gate, if cfg.doPush then Pushed else WouldPush)
  {
  }

  lemma RecordedIsSound(cfg: Config, detached: bool, recorded: seq<Publication>, w: State, src: Source,
                        target: string, landed: History)
    requires Steady(cfg, detached, w, recorded, {})
    requires w.published != [] && w.published[..|w.published| - 1] == recorded
    requires
      var last := w.published[|w.published| - 1];
      InPlace(last, w.remote) && last.name == src.name && last.target == target
    ensures Sound(cfg, detached, Noting(w, src, target, landed))
  {
    NewlyRecorded(w.published, w.remote, w.ledger, Row(src.name, target, LastId(landed), src.head));
  }

  // ------------------------------------------------------------ whole runs

  /** A branch with the targets it is planned for. */
  datatype Item = Item(src: Source, targets: seq<string>)

  function ItemNames(items: seq<Item>): (names: seq<string>)
    ensures |names| == |items| && forall i | 0 <= i < |names| :: names[i] == items[i].src.name
  {
    seq(|items|, i requires 0 <= i < |items| => items[i].src.name)
  }

  function NewRows(w: State, w': State): seq<Row> {
    if w.ledger <= w'.ledger then w'.ledger[|w.ledger|..] else []
  }

  function Pair(r: Row): (string, string) { (r.branch, r.target) }

  ghost predicate NoRepeats(rows: seq<Row>) {
    forall i, j | 0 <= i < j < |rows| :: Pair(rows[i]) != Pair(rows[j])
  }

  /** The publications since `from` are those of `rows`, one for one. */
  ghost predicate RowsArePublished(published: seq<Publication>, from: nat, rows: seq<Row>) {
    && |published| == from + |rows|
    && forall i | 0 <= i < |rows| ::
      published[from + i].name == rows[i].branch && published[from + i].target == rows[i].target
  }

  /** The record only grows, and every new publication has its new ledger row. */
  ghost predicate Progress(w: State, w': State) {
    && Grew(w.remote, w'.remote) && w.trials <= w'.trials && w.trailers <= w'.trailers
    && w.ledger <= w'.ledger && w'.merged == w.merged + MergedPairs(NewRows(w, w'))
    && w.published <= w'.published && RowsArePublished(w'.published, |w.published|, NewRows(w, w'))
    && w'.refs.objects == w.refs.objects
  }

  lemma NoProgress(w: State, w': State)
    requires Grew(w.remote, w'.remote) && w.trials <= w'.trials && w.trailers <= w'.trailers
    requires SameBooks(w, w') && w'.refs.objects == w.refs.objects
    ensures Progress(w, w') && NewRows(w, w') == []
  {
  }

  lemma ProgressTwice(a: State, b: State, c: State)
    requires Progress(a, b) && Progress(b, c)
    ensures Progress(a, c) && NewRows(a, c) == NewRows(a, b) + NewRows(b, c)
  {
    hide MergedPairs, RowsArePublished, Grew, NewRows;
    var ab, bc := NewRows(a, b), NewRows(b, c);
    RowsTwice(a, b, c);
    PairsTogether(ab, bc);
    PublishedTwice(a.published, b.published, c.published, ab, bc);
    GrewTwice(a.remote, b.remote, c.remote);
    assert a.merged + MergedPairs(ab) + MergedPairs(bc) == a.merged + (MergedPairs(ab) + MergedPairs(bc));
  }

  lemma RowsTwice(a: State, b: State, c: State)
    requires a.ledger <= b.ledger <= c.ledger
    ensures a.ledger <= c.ledger && NewRows(a, c) == NewRows(a, b) + NewRows(b, c)
  {
    assert c.ledger == a.ledger + (NewRows(a, b) + NewRows(b, c));
  }

  lemma GrewTwice(a: Remote, b: Remote, c: Remote)
    requires Grew(a, b) && Grew(b, c)
    ensures Grew(a, c)
  {
    forall t | t in a ensures a[t] <= c[t] {
      assert a[t] <= b[t] && b[t] <= c[t];
    }
  }

  lemma PairsTogether(a: seq<Row>, b: seq<Row>)
    ensures MergedPairs(a + b) == MergedPairs(a) + MergedPairs(b)
  {
    assert forall r :: r in a + b <==> r in a || r in b;
  }

  lemma PublishedTwice(a: seq<Publication>, b: seq<Publication>, c: seq<Publication>, ab: seq<Row>, bc: seq<Row>)
    requires a <= b <= c && RowsArePublished(b, |a|, ab) && RowsArePublished(c, |b|, bc)
    ensures a <= c && RowsArePublished(c, |a|, ab + bc)
  {
    forall i | 0 <= i < |ab + bc|
      ensures c[|a| + i].name == (ab + bc)[i].branch && c[|a| + i].target == (ab + bc)[i].target {
      if i < |ab| {
        assert c[|a| + i] == b[|a| + i];
      } else {
        assert c[|b| + (i - |ab|)].name == bc[i - |ab|].branch;
      }
    }
  }

  /** One row and its publication. */
  lemma OneRow(w: State, w': State, row: Row)
    requires w'.ledger == w.ledger + [row] && w'.merged == w.merged + {Pair(row)}
    requires |w'.published| == |w.published| + 1 && w'.published[..|w.published|] == w.published
    requires var last := w'.published[|w.published|]; last.name == row.branch && last.target == row.target
    ensures w.ledger <= w'.ledger && NewRows(w, w') == [row] && w'.merged == w.merged + MergedPairs([row])
    ensures w.published <= w'.published && RowsArePublished(w'.published, |w.published|, [row])
  {
    assert MergedPairs([row]) == {Pair(row)};
  }

  lemma PairProgress(cfg: Config, detached: bool, w: State, w': State, src: Source, target: string,
                     series: History, withTrailer: bool, landed: History, outcome: Outcome)
    requires PairStep(cfg, detached, w, w', src, target, series, withTrailer, landed, outcome)
    ensures Progress(w, w')
    ensures NewRows(w, w') == if outcome == Pushed then [Row(src.name, target, LastId(landed), src.head)] else []
  {
    hide TriedOnce, PicksAbove, Ids, InPlace, Start;
    if outcome == Pushed {
      OneRow(w, w', Row(src.name, target, LastId(landed), src.head));
    } else {
      NoProgress(w, w');
    }
  }

  /** The sha is on the push remote's master, or the ledger remembers it as this branch's master commit. */
  ghost predicate IsPublic(rows: seq<Row>, name: string, remote: Remote, id: nat) {
    ("master" in remote && Holds(remote["master"], id)) || LedgerCommit(rows, name, "master") == Some(id)
  }

  lemma StaysPublic(rows: seq<Row>, name: string, before: Remote, after: Remote, id: nat)
    requires IsPublic(rows, name, before, id) && Grew(before, after)
    ensures IsPublic(rows, name, after, id)
  {
    if "master" in before && Holds(before["master"], id) {
      var k :| 0 <= k < |before["master"]| && before["master"][k].id == id;
      assert before["master"] <= after["master"];
      assert after["master"][k].id == id;
    }
  }

  /** A row this item may add: its own name, one of its targets, not merged before, and pushed past both gates. */
  ghost predicate RowOf(cfg: Config, w: State, w': State, it: Item, r: Row) {
    && r.branch == it.src.name && r.target in it.targets && r.sourceHead == it.src.head
    && Pair(r) !in w.merged
    && exists k | |w.trials| <= k < |w'.trials| ::
         var t := w'.trials[k];
         t.name == r.branch && t.target == r.target && t.outcome == Pushed && Clears(cfg, it.src, r.target, t.gate)
  }

  /** What executing `items`, in whatever order, may have done to the state. */
  ghost predicate BatchStep(cfg: Config, rows: seq<Row>, w: State, w': State, items: seq<Item>) {
    && Progress(w, w') && NoRepeats(NewRows(w, w'))
    && (forall r | r in NewRows(w, w') :: exists it | it in items :: RowOf(cfg, w, w', it, r))
    && (cfg.doPush ==> forall id | id in w'.trailers - w.trailers ::
          exists it | it in items :: IsPublic(rows, it.src.name, w'.remote, id))
  }

  // ------------------------------------------------------------ the record of attempts

  /** What execute() attempts of one branch, in this order; a branch is not merged into itself. */
  function AttemptsIn(name: string, order: seq<string>): seq<(string, string)> {
    if order == [] then []
    else
      var n := |order| - 1;
      AttemptsIn(name, order[..n]) + if order[n] == name then [] else [(name, order[n])]
  }

  /** What a batch attempts: branch after branch, master first. */
  function Attempts(items: seq<Item>): seq<(string, string)> {
    if items == [] then []
    else
      var n := |items| - 1;
      Attempts(items[..n]) + AttemptsIn(items[n].src.name, MasterFirst(items[n].targets))
  }

  function EventPairs(events: seq<Event>): seq<(string, string)> {
    seq(|events|, i requires 0 <= i < |events| => (events[i].name, events[i].target))
  }

  function PushedIn(events: seq<Event>): seq<(string, string)> {
    if events == [] then []
    else
      var e := events[|events| - 1];
      PushedIn(events[..|events| - 1]) + if e.outcome == Pushed then [(e.name, e.target)] else []
  }

  function RowPairs(rows: seq<Row>): seq<(string, string)> {
    seq(|rows|, i requires 0 <= i < |rows| => Pair(rows[i]))
  }

  /** One event for each attempt, in order, and a ledger row for exactly those recorded as pushed. */
  ghost predicate Booked(w: State, w': State, events: seq<Event>, attempts: seq<(string, string)>) {
    EventPairs(events) == attempts && PushedIn(events) == RowPairs(NewRows(w, w'))
  }

  lemma {:induction false} PushedInSum(a: seq<Event>, b: seq<Event>)
    ensures PushedIn(a + b) == PushedIn(a) + PushedIn(b)
    decreases |b|
  {
    if b == [] {
      assert a + b == a;
    } else {
      PushedInSum(a, b[..|b| - 1]);
      assert (a + b)[..|a + b| - 1] == a + b[..|b| - 1];
    }
  }

  lemma BookedTwice(a: State, b: State, c: State, first: seq<Event>, second: seq<Event>,
                    attempts: seq<(string, string)>, more: seq<(string, string)>)
    requires Progress(a, b) && Progress(b, c) && Booked(a, b, first, attempts) && Booked(b, c, second, more)
    ensures Booked(a, c, first + second, attempts + more)
  {
    hide Progress, NewRows;
    ProgressTwice(a, b, c);
    PushedInSum(first, second);
  }

  lemma BookedNothing(w: State, w': State)
    requires NewRows(w, w') == []
    ensures Booked(w, w', [], [])
  {
  }

  /** One attempt and its event; a push that went out has its row. */
  lemma BookedOne(w: State, w': State, name: string, target: string, outcome: Outcome)
    requires if outcome == Pushed then |NewRows(w, w')| == 1 &&
      Pair(NewRows(w, w')[0]) == (name, target) else NewRows(w, w') == []
    ensures Booked(w, w', [Event(name, target, outcome)], [(name, target)])
  {
    var events := [Event(name, target, outcome)];
    assert events[..0] == [];
    assert PushedIn(events) == PushedIn([]) + if outcome == Pushed then [(name, target)] else [];
  }

  lemma AttemptsOneMore(name: string, order: seq<string>, i: nat)
    requires i < |order|
    ensures AttemptsIn(name, order[..i + 1]) == AttemptsIn(name, order[..i]) + AttemptsIn(name, [order[i]])
  {
    assert order[..i + 1][..i] == order[..i];
    OneAttempt(name, order[i]);
  }

  lemma OneAttempt(name: string, target: string)
    ensures AttemptsIn(name, [target]) == if target == name then [] else [(name, target)]
  {
    assert [target][..0] == [];
  }

  lemma BatchAttemptsOneMore(items: seq<Item>, i: nat)
    requires i < |items|
    ensures Attempts(items[..i + 1]) ==
      Attempts(items[..i]) + AttemptsIn(items[i].src.name, MasterFirst(items[i].targets))
  {
    assert items[..i + 1][..i] == items[..i];
  }

  /** Every planned target is attempted, and nothing else. */
  lemma {:induction false} AttemptedAre(name: string, order: seq<string>, pair: (string, string))
    ensures pair in AttemptsIn(name, order) <==> pair.0 == name && pair.1 != name && pair.1 in order
    decreases |order|
  {
    if order != [] {
      var n := |order| - 1;
      AttemptedAre(name, order[..n], pair);
      assert order == order[..n] + [order[n]];
    }
  }

  /** Nothing planned has been merged already, and no target is planned twice. */
  ghost predicate StillToMerge(items: seq<Item>, merged: set<(string, string)>) {
    forall it | it in items :: Distinct(it.targets) && forall t | t in it.targets :: (it.src.name, t) !in merged
  }

  lemma EmptyBatch(cfg: Config, rows: seq<Row>, w: State, w': State)
    requires Grew(w.remote, w'.remote) && w.trials <= w'.trials && w.trailers == w'.trailers
    requires SameBooks(w, w') && w'.refs.objects == w.refs.objects
    ensures BatchStep(cfg, rows, w, w', [])
  {
    NoProgress(w, w');
  }

  /** Two batches of different branches, one after the other, are one batch. */
  lemma BatchTwice(cfg: Config, rows: seq<Row>, a: State, b: State, c: State, first: seq<Item>, second: seq<Item>)
    requires BatchStep(cfg, rows, a, b, first) && BatchStep(cfg, rows, b, c, second)
    ensures BatchStep(cfg, rows, a, c, first + second)
  {
    hide IsPublic, RowOf, NoRepeats, NewRows, Progress;
    ProgressTwice(a, b, c);
    GrewInProgress(b, c);
    forall r | r in NewRows(a, c) ensures exists it | it in first + second :: RowOf(cfg, a, c, it, r) {
      RowStillOf(cfg, a, b, c, first, second, r);
    }
    NoneRepeated(cfg, a, b, c, second);
    if cfg.doPush {
      forall id | id in c.trailers - a.trailers
        ensures exists it | it in first + second :: IsPublic(rows, it.src.name, c.remote, id)
      {
        PublicTwice(rows, a, b, c, first, second, id);
      }
    }
  }

  lemma GrewInProgress(w: State, w': State)
    requires Progress(w, w')
    ensures Grew(w.remote, w'.remote)
  {
  }

  lemma RowStillOf(cfg: Config, a: State, b: State, c: State, first: seq<Item>, second: seq<Item>, r: Row)
    requires Progress(a, b) && Progress(b, c) && r in NewRows(a, b) + NewRows(b, c)
    requires forall n | n in NewRows(a, b) :: exists it | it in first :: RowOf(cfg, a, b, it, n)
    requires forall n | n in NewRows(b, c) :: exists it | it in second :: RowOf(cfg, b, c, it, n)
    ensures exists it | it in first + second :: RowOf(cfg, a, c, it, r)
  {
    hide NewRows, Clears, MergedPairs, RowsArePublished, Grew;
    if r in NewRows(a, b) {
      var it :| it in first && RowOf(cfg, a, b, it, r);
      assert it in first + second && RowOf(cfg, a, c, it, r);
    } else {
      var it :| it in second && RowOf(cfg, b, c, it, r);
      assert it in first + second && RowOf(cfg, a, c, it, r);
    }
  }

  lemma NoneRepeated(cfg: Config, a: State, b: State, c: State, second: seq<Item>)
    requires Progress(a, b) && NewRows(a, c) == NewRows(a, b) + NewRows(b, c)
    requires NoRepeats(NewRows(a, b)) && NoRepeats(NewRows(b, c))
    requires forall r | r in NewRows(b, c) :: exists it | it in second :: RowOf(cfg, b, c, it, r)
    ensures NoRepeats(NewRows(a, c))
  {
    hide NewRows, RowsArePublished, Grew, Clears;
    var ab, bc, ac := NewRows(a, b), NewRows(b, c), NewRows(a, c);
    forall i, j | 0 <= i < j < |ac| ensures Pair(ac[i]) != Pair(ac[j]) {
      if i < |ab| <= j {
        assert bc[j - |ab|] in bc;
        var it :| it in second && RowOf(cfg, b, c, it, bc[j - |ab|]);
        assert ab[i] in ab && Pair(ab[i]) in MergedPairs(ab);
      }
    }
  }

  lemma PublicTwice(rows: seq<Row>, a: State, b: State, c: State, first: seq<Item>, second: seq<Item>, id: nat)
    requires Grew(b.remote, c.remote) && id in c.trailers - a.trailers
    requires forall i | i in b.trailers - a.trailers :: exists it | it in first ::
      IsPublic(rows, it.src.name, b.remote, i)
    requires forall i | i in c.trailers - b.trailers ::
      exists it | it in second :: IsPublic(rows, it.src.name, c.remote, i)
    ensures exists it | it in first + second :: IsPublic(rows, it.src.name, c.remote, id)
  {
    hide IsPublic, Grew;
    if id in b.trailers {
      assert id in b.trailers - a.trailers;
      var it :| it in first && IsPublic(rows, it.src.name, b.remote, id);
      StaysPublic(rows, it.src.name, b.remote, c.remote, id);
      assert it in first + second;
    } else {
      assert id in c.trailers - b.trailers;
      var it :| it in second && IsPublic(rows, it.src.name, c.remote, id);
      assert it in first + second;
    }
  }

  lemma NothingAttempted(w: State, name: string, order: seq<string>)
    ensures forall events: seq<Event> | |events| == 0 :: Booked(w, w, events, AttemptsIn(name, order[..0]))
  {
  }

  lemma NoBatchAttempted(w: State, items: seq<Item>)
    ensures forall events: seq<Event> | |events| == 0 :: Booked(w, w, events, Attempts(items[..0]))
  {
  }

  /** Two batches' events, one after the other. */
  lemma BookedBatches(cfg: Config, rows: seq<Row>, a: State, b: State, c: State, first: seq<Item>, second: seq<Item>,
                      start: seq<Event>, seen: seq<Event>, events: seq<Event>, attempts: seq<(string, string)>,
                        more: seq<(string, string)>)
    requires BatchStep(cfg, rows, a, b, first) && BatchStep(cfg, rows, b, c, second)
    requires start <= seen <= events
    requires Booked(a, b, seen[|start|..], attempts) && Booked(b, c, events[|seen|..], more)
    ensures Booked(a, c, events[|start|..], attempts + more)
  {
    hide Booked, Progress;
    assert events[|start|..] == seen[|start|..] + events[|seen|..];
    BookedTwice(a, b, c, seen[|start|..], events[|seen|..], attempts, more);
  }

  /** What was booked after a step that merged nothing. */
  lemma BookedSince(cfg: Config, rows: seq<Row>, a: State, b: State, c: State, items: seq<Item>, events: seq<Event>,
      attempts: seq<(string, string)>)
    requires BatchStep(cfg, rows, a, b, items) && NewRows(a, b) == [] && BatchStep(cfg, rows, b, c, items)
    requires Booked(b, c, events, attempts)
    ensures Booked(a, c, events, attempts)
  {
    BookedNothing(a, b);
    BookedTwice(a, b, c, [], events, [], attempts);
    assert [] + events == events && [] + attempts == attempts;
  }

  /** What one branch merges leaves every other branch's plan as fresh as it was. */
  lemma OthersStayUnmerged(cfg: Config, rows: seq<Row>, w: State, w': State, done: seq<Item>, rest: seq<Item>)
    requires BatchStep(cfg, rows, w, w', done) && StillToMerge(rest, w.merged)
    requires forall d, it | d in done && it in rest :: d.src.name != it.src.name
    ensures StillToMerge(rest, w'.merged)
  {
    forall r, it | r in NewRows(w, w') && it in rest ensures r.branch != it.src.name {
      var d :| d in done && RowOf(cfg, w, w', d, r);
    }
  }

  /** The same items, listed otherwise. */
  lemma BatchRelisted(cfg: Config, rows: seq<Row>, w: State, w': State, items: seq<Item>, others: seq<Item>)
    requires BatchStep(cfg, rows, w, w', items) && forall it | it in items :: it in others
    ensures BatchStep(cfg, rows, w, w', others)
  {
  }

  /** What was pushed got past both gates. */
  lemma PushedIsCleared(cfg: Config, src: Source, start: History, t: Trial)
    requires AsAnswered(cfg, src, start, t) && t.outcome == Pushed
    ensures Clears(cfg, src, t.target, t.gate)
  {
    hide PicksOf;
  }

  /** One backport of a planned pair is part of executing its item. */
  lemma PairBatch(cfg: Config, detached: bool, rows: seq<Row>, w: State, w': State, it: Item, target: string,
                  onMaster: History, landed: History, outcome: Outcome)
    requires PairStep(cfg, detached, w, w', it.src, target, ToPick(it.src.commits, onMaster), onMaster != [], landed,
      outcome)
    requires target in it.targets && (it.src.name, target) !in w.merged
    requires cfg.doPush ==> forall c | c in onMaster :: IsPublic(rows, it.src.name, w.remote, c.id)
    ensures BatchStep(cfg, rows, w, w', [it])
    ensures w'.merged <= w.merged + {(it.src.name, target)}
  {
    hide AsAnswered, PickedIn, HasAll, CopiesAbove, PicksAbove, Clears, Start, LandedOn;
    var series := ToPick(it.src.commits, onMaster);
    PairProgress(cfg, detached, w, w', it.src, target, series, onMaster != [], landed, outcome);
    assert it in [it];
    if outcome == Pushed {
      var row := Row(it.src.name, target, LastId(landed), it.src.head);
      PushedIsCleared(cfg, it.src, Start(detached, w, target), w'.trials[|w.trials|]);
      assert RowOf(cfg, w, w', it, row);
    }
    if cfg.doPush {
      forall id | id in w'.trailers - w.trailers ensures IsPublic(rows, it.src.name, w'.remote, id) {
        var c :| c in series && c.id == id;
        assert c in onMaster;
        StaysPublic(rows, it.src.name, w.remote, w'.remote, id);
      }
    }
  }

  /** What on_master_already() finds is on the push remote's master or remembered by the ledger. */
  lemma OnMasterIsPublic(cfg: Config, detached: bool, w: State, rows: seq<Row>, src: Source, c: Commit)
    requires Sound(cfg, detached, w) && c in SeriesOnMaster(w.refs, rows, src)
    ensures IsPublic(rows, src.name, w.remote, c.id)
  {
    hide AllRecorded, Behind, MergedPairs, NotOnMaster, Counterpart;
    var master := if "master" in w.refs.upstream then w.refs.upstream["master"] else [];
    var found := SeriesOnMaster(w.refs, rows, src);
    var i :| 0 <= i < |found| && found[i] == c;
    assert IsOnMaster(c, src.commits[i], Remembered(w.refs, rows, src.name), Span(src.base, master));
    if Remembered(w.refs, rows, src.name) != Some(c) {
      assert c in master && "master" in w.refs.upstream;
      var k :| 0 <= k < |master| && master[k] == c;
      assert w.remote["master"][k].id == c.id;
    }
  }

  // ------------------------------------------------------------ CI and the approval gate

  datatype CiState = Passing | Running | RunningWithFailures | Failing | NoRuns | CiError

  predicate StillRunning(s: CiState) { s == Running || s == RunningWithFailures }

  /** The patch ids of whole changes, where they could be worked out. */
  type Signatures = map<History, nat>

  predicate SameChange(signatures: Signatures, src: Source) {
    || src.head == src.forkHead
    || (src.head in signatures && src.forkHead in signatures && signatures[src.head] == signatures[src.forkHead])
  }

  /** warn_if_untested(): CI covers what is picked when it ran on the same change. */
  function CheckCoverage(signatures: Signatures, src: Source): Source {
    if SameChange(signatures, src) then src.(ciCovers := true) else src
  }

  /** Never been green, and nothing claimed for CI yet. */
  predicate Untried(src: Source) { !src.ciGreen && !src.ciCovers }

  /** The last answer GitHub gave about each branch, with the commit it is about; and what has been recorded. */
  datatype Evidence = Evidence(answers: map<string, (History, CiState)>, events: seq<Event>)

  /** The last answer about the branch is about its fork head, and is one of these. */
  predicate LastAnswerIs(heard: Evidence, src: Source, states: set<CiState>) {
    src.name in heard.answers && heard.answers[src.name].0 == src.forkHead && heard.answers[src.name].1 in states
  }

  /** A local build stands in for CI that has not come to an end, and that is on record. */
  predicate StoodIn(cfg: Config, heard: Evidence, src: Source) {
    && cfg.localStandIn && cfg.doCompile
    && LastAnswerIs(heard, src, {Running, RunningWithFailures})
    && Event(src.name, "-", BuiltHere) in heard.events
  }

  /** Why a source may be executed: CI was waived, was green for its fork head, or a local build stands in. */
  ghost predicate Justified(cfg: Config, signatures: Signatures, heard: Evidence, src: Source) {
    && (src.ciGreen ==> LastAnswerIs(heard, src, {Passing}))
    && (src.ciCovers ==>
          || src.head == src.forkHead
          || (src.head in signatures && src.forkHead in signatures
              && signatures[src.head] == signatures[src.forkHead]))
    && (!src.ciGreen ==> cfg.skipCi || StoodIn(cfg, heard, src))
  }

  /** Nothing recorded is lost, and only `asked` branches have a new answer. */
  ghost predicate Later(before: Evidence, after: Evidence, asked: set<string>) {
    && before.events <= after.events
    && forall n | n !in asked ::
         && (n in before.answers <==> n in after.answers)
         && (n in before.answers ==> before.answers[n] == after.answers[n])
  }

  lemma LaterTwice(a: Evidence, b: Evidence, c: Evidence, asked: set<string>)
    requires Later(a, b, asked) && Later(b, c, asked)
    ensures Later(a, c, asked)
  {
  }

  lemma LaterWider(a: Evidence, b: Evidence, asked: set<string>, wider: set<string>)
    requires Later(a, b, asked) && asked <= wider
    ensures Later(a, b, wider)
  {
  }

  lemma StaysJustifiedOne(cfg: Config, signatures: Signatures, before: Evidence, after: Evidence, asked: set<string>,
      src: Source)
    requires Justified(cfg, signatures, before, src) && Later(before, after, asked) && src.name !in asked
    ensures Justified(cfg, signatures, after, src)
  {
  }

  function NameBag(items: seq<Item>): multiset<string> {
    multiset(ItemNames(items))
  }

  lemma NameBagSum(a: seq<Item>, b: seq<Item>)
    ensures ItemNames(a + b) == ItemNames(a) + ItemNames(b) && NameBag(a + b) == NameBag(a) + NameBag(b)
  {
  }

  lemma InNames(items: seq<Item>, it: Item)
    requires it in items
    ensures it.src.name in ItemNames(items)
  {
    var i :| 0 <= i < |items| && items[i] == it;
    assert ItemNames(items)[i] == it.src.name;
  }

  /** Items whose names are apart are different branches. */
  lemma BagsApart(a: seq<Item>, b: seq<Item>, bag: multiset<string>)
    requires NameBag(a) + NameBag(b) <= bag && AtMostOnce(bag)
    ensures forall x, y | x in a && y in b :: x.src.name != y.src.name
  {
    forall x, y | x in a && y in b ensures x.src.name != y.src.name {
      InNames(a, x);
      InNames(b, y);
      PartsApart(ItemNames(a), ItemNames(b), bag, x.src.name);
    }
  }

  /** Moving refs that no invariant speaks of changes nothing. */
  lemma RefsMoved(cfg: Config, detached: bool, w: State, fork: map<string, History>, local: map<string, History>)
    requires Sound(cfg, detached, w)
    ensures Sound(cfg, detached, w.(refs := w.refs.(fork := fork, local := local)))
  {
  }

  /** What a branch nobody waits for any longer is recorded as. */
  predicate GivenUp(o: Outcome) {
    o == Vanished || o == Moved || o == NoCi || o == CiUnreadable || o == StillBuilding || o == StillFailing ||
      o == WouldWait
    || o == WouldRecheck
  }

  /** Every one of `names` has been recorded as given up, from position `from` of the record on. */
  ghost predicate Noted(outcomes: seq<Event>, from: nat, names: seq<string>) {
    forall n | n in names :: exists k | from <= k < |outcomes| ::
      outcomes[k].name == n && outcomes[k].target == "-" && GivenUp(outcomes[k].outcome)
  }

  lemma StaysNoted(before: seq<Event>, after: seq<Event>, from: nat, names: seq<string>)
    requires Noted(before, from, names) && before <= after
    ensures Noted(after, from, names)
  {
    forall n | n in names
      ensures exists k | from <= k < |after| ::
        after[k].name == n && after[k].target == "-" && GivenUp(after[k].outcome)
    {
      var k :| from <= k < |before| && before[k].name == n && before[k].target == "-" && GivenUp(before[k].outcome);
      assert after[k] == before[k];
    }
  }

  lemma NotedTogether(outcomes: seq<Event>, from: nat, later: nat, a: seq<string>, b: seq<string>)
    requires Noted(outcomes, from, a) && Noted(outcomes, later, b) && from <= later
    ensures Noted(outcomes, from, a + b)
  {
  }

  function WithoutName(items: seq<Item>, name: string): seq<Item> {
    if items == [] then []
    else if items[0].src.name == name then WithoutName(items[1..], name)
    else [items[0]] + WithoutName(items[1..], name)
  }

  lemma {:induction false} WithoutAbsent(items: seq<Item>, name: string)
    requires name !in ItemNames(items)
    ensures WithoutName(items, name) == items
  {
    if items != [] {
      assert ItemNames(items)[0] == items[0].src.name;
      assert ItemNames(items[1..]) == ItemNames(items)[1..];
      WithoutAbsent(items[1..], name);
    }
  }

  /** Taking the head's name off a list of distinct names takes off the head alone. */
  lemma WithoutHead(items: seq<Item>)
    requires items != [] && Distinct(ItemNames(items))
    ensures WithoutName(items, items[0].src.name) == items[1..]
  {
    assert ItemNames(items[1..]) == ItemNames(items)[1..];
    assert ItemNames(items)[0] == items[0].src.name;
    WithoutAbsent(items[1..], items[0].src.name);
  }

  /** A list of work that may be merged later: distinct, unmerged, and never yet green. */
  ghost predicate Queue(items: seq<Item>, merged: set<(string, string)>) {
    StillToMerge(items, merged) && forall it | it in items :: Untried(it.src)
  }

  ghost predicate AllJustified(cfg: Config, signatures: Signatures, heard: Evidence, items: seq<Item>) {
    forall it | it in items :: Justified(cfg, signatures, heard, it.src)
  }

  lemma StaysJustified(cfg: Config, signatures: Signatures, before: Evidence, after: Evidence, asked: set<string>,
      items: seq<Item>)
    requires AllJustified(cfg, signatures, before, items) && Later(before, after, asked)
    requires forall it | it in items :: it.src.name !in asked
    ensures AllJustified(cfg, signatures, after, items)
  {
    hide Justified, Later;
    forall it | it in items ensures Justified(cfg, signatures, after, it.src) {
      StaysJustifiedOne(cfg, signatures, before, after, asked, it.src);
    }
  }

  /** Of each of these, CI was still running when GitHub was last asked. */
  ghost predicate AllRunning(heard: Evidence, items: seq<Item>) {
    forall it | it in items :: LastAnswerIs(heard, it.src, {Running, RunningWithFailures})
  }

  ghost predicate AllGreen(items: seq<Item>) {
    forall it | it in items :: it.src.ciGreen
  }

  /** `items` are `from`'s branches, in whatever state of CI. */
  ghost predicate SameWork(items: seq<Item>, from: seq<Item>) {
    forall it | it in items :: exists f | f in from ::
      f.targets == it.targets && f.src.(ciGreen := it.src.ciGreen, ciCovers := it.src.ciCovers) == it.src
  }

  lemma SameWorkStillToMerge(items: seq<Item>, from: seq<Item>, merged: set<(string, string)>)
    requires SameWork(items, from) && StillToMerge(from, merged)
    ensures StillToMerge(items, merged)
  {
    forall it | it in items ensures Distinct(it.targets) && forall t | t in it.targets :: (it.src.name, t) !in merged {
      var f :| f in from && f.targets == it.targets &&
        f.src.(ciGreen := it.src.ciGreen, ciCovers := it.src.ciCovers) == it.src;
      assert f.src.name == it.src.name;
    }
  }

  /** How one look at the waiting branches sorted them. */
  datatype Look = Look(ready: seq<Item>, still: seq<Item>, late: seq<Item>, gone: seq<string>)

  /** Each branch seen is in exactly one pile; only the ready ones have changed. */
  ghost predicate Sorts(look: Look, seen: seq<Item>) {
    && NameBag(seen) == NameBag(look.ready) + NameBag(look.still) + NameBag(look.late) + multiset(look.gone)
    && |look.ready| + |look.still| <= |seen|
    && (forall it | it in look.still :: it in seen) && (forall it | it in look.late :: it in seen)
    && SameWork(look.ready, seen)
  }

  lemma SortsOneMore(look: Look, seen: seq<Item>, it: Item, now: Item, after: Look)
    requires Sorts(look, seen) && now.targets == it.targets
    requires now.src == it.src.(ciGreen := now.src.ciGreen, ciCovers := now.src.ciCovers)
    requires
      || after == look.(ready := look.ready + [now])
      || after == look.(still := look.still + [it])
      || after == look.(late := look.late + [it])
      || after == look.(gone := look.gone + [it.src.name])
    ensures Sorts(after, seen + [it])
  {
    NameBagSum(seen, [it]);
    NameBagSum(look.ready, [now]);
    NameBagSum(look.still, [it]);
    NameBagSum(look.late, [it]);
    assert ItemNames([now]) == ItemNames([it]) == [it.src.name];
    assert it in seen + [it];
    forall r | r in after.ready
      ensures exists f | f in seen + [it] ::
        f.targets == r.targets && f.src.(ciGreen := r.src.ciGreen, ciCovers := r.src.ciCovers) == r.src
    {
      if r in look.ready {
        var f :| f in seen && f.targets == r.targets &&
          f.src.(ciGreen := r.src.ciGreen, ciCovers := r.src.ciCovers) == r.src;
        assert f in seen + [it];
      } else {
        assert r == now && it.src.(ciGreen := r.src.ciGreen, ciCovers := r.src.ciCovers) == r.src;
      }
    }
  }

  /** Whatever is not green is given up. */
  lemma NoneWaits(look: Look, seen: seq<Item>)
    requires Sorts(look, seen)
    ensures Sorts(Look(look.ready, [], [], look.gone + ItemNames(look.late) + ItemNames(look.still)), seen)
  {
    assert ItemNames([]) == [];
  }

  /** The pile a CI answer puts a branch on, and what is recorded; `now` is the branch once green. */
  function SortedByCi(look: Look, it: Item, now: Item, state: CiState): (Look, seq<Event>) {
    match state
    case Passing => (look.(ready := look.ready + [now]), [])
    case Running => (look.(still := look.still + [it]), [])
    case RunningWithFailures => (look.(still := look.still + [it]), [])
    case Failing => (look.(late := look.late + [it]), [])
    case CiError => DroppedFrom(look, it.src.name, CiUnreadable)
    case NoRuns => DroppedFrom(look, it.src.name, NoCi)
  }

  function DroppedFrom(look: Look, name: string, why: Outcome): (Look, seq<Event>) {
    (look.(gone := look.gone + [name]), [Event(name, "-", why)])
  }

  function GreenNow(signatures: Signatures, it: Item): Item {
    it.(src := CheckCoverage(signatures, it.src.(ciGreen := true)))
  }

  /** Where run() puts a listed branch, given GitHub's answer about its fork head. */
  function Classified(cfg: Config, refs: Refs, signatures: Signatures, held: set<string>, look: Look, entry: Entry,
      state: CiState): (Look, seq<Event>) {
    if entry.name in held then DroppedFrom(look, entry.name, HeldBack)
    else match Resolved(cfg, refs, FreshSource(entry))
      case None => DroppedFrom(look, entry.name, NotOnFork)
      case Some(src) =>
        if cfg.skipCi then (look.(ready := look.ready + [Item(CheckCoverage(signatures, src), [])]), [])
        else SortedByCi(look, Item(src, []), GreenNow(signatures, Item(src, [])), state)
  }

  function ClassifiedAll(cfg: Config, refs: Refs, signatures: Signatures, held: set<string>, entries: seq<Entry>,
      answers: seq<CiState>): (Look, seq<Event>)
    requires |entries| == |answers|
  {
    if entries == [] then (Look([], [], [], []), [])
    else
      var n := |entries| - 1;
      var before := ClassifiedAll(cfg, refs, signatures, held, entries[..n], answers[..n]);
      var after := Classified(cfg, refs, signatures, held, before.0, entries[n], answers[n]);
      (after.0, before.1 + after.1)
  }

  /** Where a later look puts a branch that was waiting: gone from the fork, moved, or by the answer. */
  function LookedAt(cfg: Config, refs: Refs, signatures: Signatures, look: Look, it: Item, state: CiState): (Look,
      seq<Event>) {
    match ResolveOnFork(refs, it.src.name, cfg.strip)
    case None => DroppedFrom(look, it.src.name, Vanished)
    case Some(found) =>
      if found.1 != it.src.forkHead then DroppedFrom(look, it.src.name, Moved)
      else SortedByCi(look, it, GreenNow(signatures, it), state)
  }

  function LookedAtAll(cfg: Config, refs: Refs, signatures: Signatures, pending: seq<Item>,
      answers: seq<CiState>): (Look, seq<Event>)
    requires |pending| == |answers|
  {
    if pending == [] then (Look([], [], [], []), [])
    else
      var n := |pending| - 1;
      var before := LookedAtAll(cfg, refs, signatures, pending[..n], answers[..n]);
      var after := LookedAt(cfg, refs, signatures, before.0, pending[n], answers[n]);
      (after.0, before.1 + after.1)
  }

  lemma ClassifiedOneMore(cfg: Config, refs: Refs, signatures: Signatures, held: set<string>, entries: seq<Entry>,
      answers: seq<CiState>, i: nat, state: CiState)
    requires i < |entries| && |answers| == i
    ensures ClassifiedAll(cfg, refs, signatures, held, entries[..i + 1], answers + [state]) ==
      var before := ClassifiedAll(cfg, refs, signatures, held, entries[..i], answers);
      var after := Classified(cfg, refs, signatures, held, before.0, entries[i], state);
      (after.0, before.1 + after.1)
  {
    hide Classified;
    assert entries[..i + 1][..i] == entries[..i] && (answers + [state])[..i] == answers;
  }

  lemma LookedAtOneMore(cfg: Config, refs: Refs, signatures: Signatures, pending: seq<Item>, answers: seq<CiState>,
      i: nat, state: CiState)
    requires i < |pending| && |answers| == i
    ensures LookedAtAll(cfg, refs, signatures, pending[..i + 1], answers + [state]) ==
      var before := LookedAtAll(cfg, refs, signatures, pending[..i], answers);
      var after := LookedAt(cfg, refs, signatures, before.0, pending[i], state);
      (after.0, before.1 + after.1)
  {
    hide LookedAt;
    assert pending[..i + 1][..i] == pending[..i] && (answers + [state])[..i] == answers;
  }

  /** Asking about one more branch changes nothing for the ones sorted before. */
  lemma PilesStand(cfg: Config, signatures: Signatures, before: Evidence, after: Evidence, look: Look,
      seen: seq<Item>, it: Item)
    requires Sorts(look, seen) && it.src.name !in ItemNames(seen) && Later(before, after, {it.src.name})
    requires AllJustified(cfg, signatures, before, look.ready) && AllRunning(before, look.still)
    ensures AllJustified(cfg, signatures, after, look.ready) && AllRunning(after, look.still)
  {
    hide Justified;
    forall r | r in look.ready ensures r.src.name != it.src.name {
      var f :| f in seen && f.targets == r.targets &&
        f.src.(ciGreen := r.src.ciGreen, ciCovers := r.src.ciCovers) == r.src;
      InNames(seen, f);
    }
    forall r | r in look.still ensures r.src.name != it.src.name {
      InNames(seen, r);
    }
    StaysJustified(cfg, signatures, before, after, {it.src.name}, look.ready);
  }

  /** Where listed branches stand: the ready ones may be executed, the others have not been green, and none is held. */
  ghost predicate StandsOn(cfg: Config, signatures: Signatures, held: set<string>, heard: Evidence, look: Look) {
    && (forall it | it in look.ready :: it.src.name !in held && Justified(cfg, signatures, heard, it.src))
    && (forall it | it in look.still + look.late :: it.src.name !in held && Untried(it.src))
  }

  /** What stands goes on standing when another branch is asked about. */
  lemma StillStands(cfg: Config, signatures: Signatures, held: set<string>, before: Evidence, after: Evidence,
      look: Look, name: string)
    requires StandsOn(cfg, signatures, held, before, look) && LookBag(look)[name] == 0 && Later(before, after, {name})
    ensures StandsOn(cfg, signatures, held, after, look)
  {
    hide Justified;
    forall it | it in look.ready ensures it.src.name !in held && Justified(cfg, signatures, after, it.src) {
      InNames(look.ready, it);
      assert it.src.name in NameBag(look.ready);
      StaysJustifiedOne(cfg, signatures, before, after, {name}, it.src);
    }
  }

  lemma RestStands(cfg: Config, signatures: Signatures, held: set<string>, heard: Evidence, look: Look, it: Item,
      after: Look)
    requires StandsOn(cfg, signatures, held, heard, look)
    requires
      || (after == look.(still := look.still + [it]) && it.src.name !in held && Untried(it.src))
      || (after == look.(late := look.late + [it]) && it.src.name !in held && Untried(it.src))
      || after == look.(gone := look.gone + [it.src.name])
    ensures StandsOn(cfg, signatures, held, heard, after)
  {
    hide Justified, Untried;
  }

  /** What became of the waiting branches: executed, red in the end, given up on, or still waiting. */
  datatype Tally = Tally(done: seq<Item>, late: seq<Item>, gone: seq<string>, left: seq<Item>)

  /** Nothing is lost or doubled, and what is still waiting or red has not been touched. */
  ghost predicate Settles(tally: Tally, pending: seq<Item>) {
    && NameBag(pending) == NameBag(tally.done) + NameBag(tally.late) + multiset(tally.gone) + NameBag(tally.left)
    && (forall it | it in tally.late :: it in pending) && (forall it | it in tally.left :: it in pending)
    && SameWork(tally.done, pending)
  }

  lemma SameWorkTwice(a: seq<Item>, b: seq<Item>, c: seq<Item>)
    requires SameWork(a, b) && SameWork(b, c)
    ensures SameWork(a, c)
  {
    forall it | it in a
      ensures exists f | f in c ::
        f.targets == it.targets && f.src.(ciGreen := it.src.ciGreen, ciCovers := it.src.ciCovers) == it.src
    {
      var m :| m in b && m.targets == it.targets &&
        m.src.(ciGreen := it.src.ciGreen, ciCovers := it.src.ciCovers) == it.src;
      var f :| f in c && f.targets == m.targets &&
        f.src.(ciGreen := m.src.ciGreen, ciCovers := m.src.ciCovers) == m.src;
      assert f.src.(ciGreen := it.src.ciGreen, ciCovers := it.src.ciCovers) == it.src;
    }
  }

  lemma PartIsSameWork(part: seq<Item>, whole: seq<Item>)
    requires forall it | it in part :: it in whole
    ensures SameWork(part, whole)
  {
    forall it | it in part
      ensures exists f | f in whole ::
        f.targets == it.targets && f.src.(ciGreen := it.src.ciGreen, ciCovers := it.src.ciCovers) == it.src
    {
      assert it.src.(ciGreen := it.src.ciGreen, ciCovers := it.src.ciCovers) == it.src;
    }
  }

  lemma NothingSettledYet(pending: seq<Item>)
    ensures Settles(Tally([], [], [], pending), pending)
  {
    assert ItemNames([]) == [];
  }

  /** `second` took up where `first` left off. */
  function Join(first: Tally, second: Tally): Tally {
    Tally(first.done + second.done, first.late + second.late, first.gone + second.gone, second.left)
  }

  /** Two rounds of waiting make one. */
  lemma TalliesJoin(cfg: Config, rows: seq<Row>, signatures: Signatures, w: State, mid: State, w': State,
      pending: seq<Item>,
                    first: Tally, second: Tally, seen: seq<Event>, outcomes: seq<Event>, from: nat,
                    known: Evidence, heard: Evidence)
    requires Settles(first, pending) && Settles(second, first.left)
    requires BatchStep(cfg, rows, w, mid, first.done) && BatchStep(cfg, rows, mid, w', second.done)
    requires Noted(seen, from, first.gone) && seen <= outcomes && from <= |seen| && Noted(outcomes, |seen|, second.gone)
    requires AllJustified(cfg, signatures, known, first.done) && AllJustified(cfg, signatures, heard, second.done)
    requires Later(known, heard, NameSet(first.left)) && AtMostOnce(NameBag(pending))
    ensures
      var both := Join(first, second);
      && Settles(both, pending) && BatchStep(cfg, rows, w, w', both.done)
      && Noted(outcomes, from, both.gone) && AllJustified(cfg, signatures, heard, both.done)
  {
    NameBagSum(first.done, second.done);
    NameBagSum(first.late, second.late);
    PartIsSameWork(first.left, pending);
    SameWorkTwice(second.done, first.left, pending);
    StaysNoted(seen, outcomes, from, first.gone);
    NotedTogether(outcomes, from, |seen|, first.gone, second.gone);
    BatchTwice(cfg, rows, w, mid, w', first.done, second.done);
    ApartFromSet(first.done, first.left, NameBag(pending));
    StaysJustified(cfg, signatures, known, heard, NameSet(first.left), first.done);
  }

  /** Items apart from others are not among their names. */
  lemma ApartFromSet(items: seq<Item>, others: seq<Item>, bag: multiset<string>)
    requires NameBag(items) + NameBag(others) <= bag && AtMostOnce(bag)
    ensures forall it | it in items :: it.src.name !in NameSet(others)
  {
    BagsApart(items, others, bag);
  }

  /** The ready branches have been executed; the rest is where the look left it. */
  lemma LookSettles(look: Look, pending: seq<Item>)
    requires Sorts(look, pending)
    ensures Settles(Tally(look.ready, look.late, look.gone, look.still), pending)
  {
  }

  /** The branch at the head of the queue has had its turn. */
  lemma HeadSettles(pending: seq<Item>)
    requires pending != []
    ensures Settles(Tally([pending[0]], [], [], pending[1..]), pending)
  {
    assert [pending[0]] + pending[1..] == pending;
    NameBagSum([pending[0]], pending[1..]);
    PartIsSameWork([pending[0]], pending);
    assert ItemNames([]) == [];
  }

  /** Everything still waiting is given up on. */
  lemma AllGoneSettles(pending: seq<Item>)
    ensures Settles(Tally([], [], ItemNames(pending), []), pending)
  {
    assert ItemNames([]) == [];
  }

  /** Executing some branches leaves the others of the queue a queue. */
  lemma StillQueue(cfg: Config, rows: seq<Row>, w: State, w': State, tally: Tally, pending: seq<Item>, rest: seq<Item>)
    requires Settles(tally, pending) && AtMostOnce(NameBag(pending)) && Queue(pending, w.merged)
    requires BatchStep(cfg, rows, w, w', tally.done)
    requires rest == tally.late || rest == tally.left
    ensures Queue(rest, w'.merged) && AtMostOnce(NameBag(rest))
  {
    BagsApart(tally.done, rest, NameBag(pending));
    OthersStayUnmerged(cfg, rows, w, w', tally.done, rest);
    assert forall n :: NameBag(rest)[n] <= NameBag(pending)[n];
  }

  /** A batch after a fetch of the fork. */
  lemma FetchedBatch(cfg: Config, rows: seq<Row>, w: State, fetched: State, w': State, items: seq<Item>)
    requires fetched == w.(refs := w.refs.(fork := fetched.refs.fork)) && BatchStep(cfg, rows, fetched, w', items)
    ensures BatchStep(cfg, rows, w, w', items)
  {
    EmptyBatch(cfg, rows, w, fetched);
    BatchTwice(cfg, rows, w, fetched, w', [], items);
    assert [] + items == items;
  }

  // ------------------------------------------------------------ planning and approving a list

  /** Planning gives a source its base and its commits; what CI and the fork say of it stays. */
  ghost predicate SameStanding(src: Source, before: Source) {
    && src.name == before.name && src.forkHead == before.forkHead && src.head == before.head
    && src.ciGreen == before.ciGreen && src.ciCovers == before.ciCovers
  }

  function Stem(cfg: Config, it: Item): string { FamilyStem(it.src.name, cfg.strip) }

  /** The cuts of one piece of work, in list order. */
  function Family(cfg: Config, plans: seq<Item>, stem: string): (members: seq<Item>)
    ensures forall it :: it in members <==> it in plans && Stem(cfg, it) == stem
  {
    if plans == [] then []
    else if Stem(cfg, plans[0]) == stem then [plans[0]] + Family(cfg, plans[1..], stem)
    else Family(cfg, plans[1..], stem)
  }

  /** The head of a list of distinct names is apart from the rest. */
  lemma HeadApart(items: seq<Item>)
    requires items != [] && Distinct(ItemNames(items))
    ensures Distinct(ItemNames(items[1..]))
    ensures forall it | it in items[1..] :: it.src.name != items[0].src.name
  {
    assert ItemNames(items[1..]) == ItemNames(items)[1..];
    forall it | it in items[1..] ensures it.src.name != items[0].src.name {
      var i :| 0 <= i < |items[1..]| && items[1..][i] == it;
      assert ItemNames(items)[0] != ItemNames(items)[i + 1];
    }
  }

  lemma ConsDistinct(x: Item, rest: seq<Item>)
    requires Distinct(ItemNames(rest)) && forall it | it in rest :: it.src.name != x.src.name
    ensures Distinct(ItemNames([x] + rest))
  {
    assert ItemNames([x] + rest) == [x.src.name] + ItemNames(rest);
    forall i | 0 <= i < |rest| ensures ItemNames(rest)[i] != x.src.name {
      assert rest[i] in rest;
    }
  }

  lemma {:induction false} FamilyDistinct(cfg: Config, plans: seq<Item>, stem: string)
    requires Distinct(ItemNames(plans))
    ensures Distinct(ItemNames(Family(cfg, plans, stem)))
  {
    if plans != [] {
      HeadApart(plans);
      FamilyDistinct(cfg, plans[1..], stem);
      if Stem(cfg, plans[0]) == stem {
        ConsDistinct(plans[0], Family(cfg, plans[1..], stem));
      }
    }
  }

  /** Items of different families have different names. */
  lemma FamiliesApart(cfg: Config, approved: seq<Item>, members: seq<Item>, stem: string)
    requires Distinct(ItemNames(approved)) && Distinct(ItemNames(members))
    requires forall it | it in members :: Stem(cfg, it) == stem
    requires forall it | it in approved :: Stem(cfg, it) != stem
    ensures Distinct(ItemNames(approved + members))
  {
    NameBagSum(approved, members);
    forall i, j | 0 <= i < |approved| && 0 <= j < |members| ensures ItemNames(approved)[i] != ItemNames(members)[j] {
      assert approved[i] in approved && members[j] in members;
    }
  }

  /** The items whose name is (or is not) in the set, in list order. */
  function Chosen(items: seq<Item>, names: set<string>, wanted: bool): (chosen: seq<Item>)
    ensures forall it :: it in chosen <==> it in items && ((it.src.name in names) == wanted)
  {
    if items == [] then []
    else if (items[0].src.name in names) == wanted then [items[0]] + Chosen(items[1..], names, wanted)
    else Chosen(items[1..], names, wanted)
  }

  lemma {:induction false} ChosenDistinct(items: seq<Item>, names: set<string>, wanted: bool)
    requires Distinct(ItemNames(items))
    ensures Distinct(ItemNames(Chosen(items, names, wanted)))
  {
    if items != [] {
      HeadApart(items);
      ChosenDistinct(items[1..], names, wanted);
      if (items[0].src.name in names) == wanted {
        ConsDistinct(items[0], Chosen(items[1..], names, wanted));
      }
    }
  }

  /** Lists of distinct names with no name in common make one. */
  lemma DistinctTogether(a: seq<Item>, b: seq<Item>)
    requires Distinct(ItemNames(a)) && Distinct(ItemNames(b))
    requires forall x, y | x in a && y in b :: x.src.name != y.src.name
    ensures Distinct(ItemNames(a + b))
  {
    NameBagSum(a, b);
    forall i, j | 0 <= i < |a| && 0 <= j < |b| ensures ItemNames(a)[i] != ItemNames(b)[j] {
      assert a[i] in a && b[j] in b;
    }
  }

  // ------------------------------------------------------------ the last look

  /** What planning reads besides the branch: the ledger at the start, what was merged, the list, the targets. */
  datatype Setting = Setting(rows: seq<Row>, merged: set<(string, string)>, listed: seq<string>, valid: seq<string>)

  /** What plan() makes of a source: an item for the targets left, or nothing. */
  ghost function PlanOf(cfg: Config, refs: Refs, x: Setting, src: Source): Option<Item> {
    var base := BaseFor(cfg, refs, src);
    match PlanFrom(cfg, refs, x.rows, x.merged, x.listed, x.valid, src, base)
    case Nothing(_) => None
    case Send(targets) => Some(Item(WithBase(src, base), targets))
  }

  /** The helper scripts: local branches as they leave them, and the rewrites cut by logical name unless they failed. */
  datatype Helpers = Helpers(local: map<string, History>, made: Option<map<string, string>>)

  /** The rewrites are found through the logical name they share with the branch. */
  ghost predicate ProperNames(made: map<string, string>, strip: seq<string>) {
    forall n | n in made :: Logical(made[n], strip) == n
  }

  /** squash_output(): logical name -> the rewrite just cut for it. */
  function SquashOutput(names: seq<string>, strip: seq<string>): (made: map<string, string>)
    ensures forall n | n in made :: Logical(made[n], strip) == n
  {
    if names == [] then map[]
    else SquashOutput(names[..|names| - 1], strip)[Logical(names[|names| - 1], strip) := names[|names| - 1]]
  }

  /** The source as it is picked from now on, if its rewrite moved. */
  function MovedTo(cfg: Config, refs: Refs, made: map<string, string>, src: Source): Option<Source> {
    var name := Logical(src.name, cfg.strip);
    if name !in made || made[name] !in refs.local then None
    else if (made[name], refs.local[made[name]]) == (src.pickName, src.head) then None
    else Some(src.(pickName := made[name], head := refs.local[made[name]]))
  }

  /** One branch: kept as it is, or picked from a new head and planned again. */
  ghost function RecutOf(cfg: Config, refs: Refs, x: Setting, made: map<string, string>, it: Item): Option<Item> {
    match MovedTo(cfg, refs, made, it.src)
    case None => Some(it)
    case Some(src) => PlanOf(cfg, refs, x, src)
  }

  ghost function RecutAllOf(cfg: Config, refs: Refs, x: Setting, made: map<string, string>,
      work: seq<Item>): (seq<Item>, seq<string>) {
    if work == [] then ([], [])
    else
      var it := work[|work| - 1];
      var (again, dropped) := RecutAllOf(cfg, refs, x, made, work[..|work| - 1]);
      match RecutOf(cfg, refs, x, made, it)
      case Some(n) => (again + [n], dropped)
      case None => (again, dropped + [it.src.name])
  }

  lemma RecutAllOneMore(cfg: Config, refs: Refs, x: Setting, made: map<string, string>, work: seq<Item>, i: nat)
    requires i < |work|
    ensures
      var (again, dropped) := RecutAllOf(cfg, refs, x, made, work[..i]);
      RecutAllOf(cfg, refs, x, made, work[..i + 1]) ==
        match RecutOf(cfg, refs, x, made, work[i])
        case Some(n) => (again + [n], dropped)
        case None => (again, dropped + [work[i].src.name])
  {
    hide RecutOf;
    assert work[..i + 1][..i] == work[..i];
  }

  /** The rewrites are left alone. */
  predicate LeavesRewrites(cfg: Config) {
    !cfg.refreshBeforeRetry || cfg.pickFromFork || cfg.dryRun
  }

  lemma NoneMoved(cfg: Config, refs: Refs, x: Setting, work: seq<Item>, again: seq<Item>, dropped: seq<string>,
      helpers: Helpers)
    requires (again, dropped) == Refreshed(cfg, refs, x, work, helpers)
    ensures LeavesRewrites(cfg) ==> again == work
  {
  }

  /** refresh_rewrites(): what is left to look at, and what was dropped. */
  ghost function Refreshed(cfg: Config, refs: Refs, x: Setting, work: seq<Item>, helpers: Helpers): (seq<Item>,
      seq<string>) {
    if work == [] || LeavesRewrites(cfg) then (work, [])
    else match helpers.made
      case None => (work, [])
      case Some(made) => RecutAllOf(cfg, refs.(local := helpers.local), x, made, work)
  }

  /** The list after the rewrites were cut again: the same branches, less the dropped ones, still never green. */
  ghost predicate Recut(again: seq<Item>, dropped: seq<string>, work: seq<Item>, merged: set<(string, string)>) {
    && NameBag(work) == NameBag(again) + multiset(dropped)
    && Queue(again, merged)
  }

  lemma RecutOneMore(again: seq<Item>, dropped: seq<string>, seen: seq<Item>, merged: set<(string, string)>, it: Item,
                     now: Option<Item>)
    requires Recut(again, dropped, seen, merged)
    requires now.Some? ==> now.value.src.name == it.src.name && Queue([now.value], merged)
    ensures now.Some? ==> Recut(again + [now.value], dropped, seen + [it], merged)
    ensures now == None ==> Recut(again, dropped + [it.src.name], seen + [it], merged)
  {
    NameBagSum(seen, [it]);
    assert ItemNames([it]) == [it.src.name];
    match now
    case Some(n) =>
      NameBagSum(again, [n]);
      assert ItemNames([n]) == [n.src.name];
      assert n in [n];
    case None =>
  }

  // ------------------------------------------------------------ the whole run

  /** Which list a planned branch belongs to, by name: the ones to wait for, the red ones, or the ready rest. */
  ghost predicate Routed(cfg: Config, signatures: Signatures, heard: Evidence, held: set<string>,
                         items: seq<Item>, flight: set<string>, retry: set<string>)
  {
    forall it | it in items ::
      && it.src.name !in held
      && if it.src.name in flight ||
        it.src.name in retry then Untried(it.src) else Justified(cfg, signatures, heard, it.src)
  }

  lemma RoutedLater(cfg: Config, signatures: Signatures, before: Evidence, after: Evidence, held: set<string>,
                    items: seq<Item>, flight: set<string>, retry: set<string>)
    requires Routed(cfg, signatures, before, held, items, flight, retry) && Later(before, after, {})
    ensures Routed(cfg, signatures, after, held, items, flight, retry)
  {
    hide Justified, Later;
    forall it | it in items && Justified(cfg, signatures, before, it.src)
      ensures Justified(cfg, signatures, after, it.src) {
      StaysJustifiedOne(cfg, signatures, before, after, {}, it.src);
    }
  }

  /** What is recorded of a family that was turned down. */
  function Rejections(items: seq<Item>): seq<Event> {
    seq(|items|, i requires 0 <= i < |items| => Event(items[i].src.name, "-", NotApproved))
  }

  lemma RejectionsMeaning(items: seq<Item>, e: Event)
    ensures e in Rejections(items) <==> exists it | it in items :: e == Event(it.src.name, "-", NotApproved)
  {
    forall it | it in items && e == Event(it.src.name, "-", NotApproved) ensures e in Rejections(items) {
      var i :| 0 <= i < |items| && items[i] == it;
      assert Rejections(items)[i] == e;
    }
  }

  lemma RoutedPlans(cfg: Config, signatures: Signatures, heard: Evidence, held: set<string>,
                    items: seq<Item>, plans: seq<Item>, flight: set<string>, retry: set<string>)
    requires Routed(cfg, signatures, heard, held, items, flight, retry)
    requires forall p | p in plans :: exists it | it in items :: SameStanding(p.src, it.src)
    ensures Routed(cfg, signatures, heard, held, plans, flight, retry)
  {
    forall p | p in plans
      ensures p.src.name !in held &&
        if p.src.name in flight || p.src.name in retry then Untried(p.src) else Justified(cfg, signatures, heard, p.src)
    {
      var it :| it in items && SameStanding(p.src, it.src);
    }
  }

  /** The three parts of the approved list: what is ready, what is still building, what was red. */
  datatype Parts = Parts(ready: seq<Item>, pending: seq<Item>, red: seq<Item>)

  function PartsOf(approved: seq<Item>, flight: set<string>, retry: set<string>): Parts {
    Parts(Chosen(approved, flight + retry, false), Chosen(approved, flight, true), Chosen(approved, retry, true))
  }

  lemma PartsMeaning(cfg: Config, signatures: Signatures, heard: Evidence, held: set<string>,
                     approved: seq<Item>, flight: set<string>, retry: set<string>, merged: set<(string, string)>)
    requires Routed(cfg, signatures, heard, held, approved, flight, retry)
    requires Distinct(ItemNames(approved)) && StillToMerge(approved, merged) && flight !! retry
    ensures
      var parts := PartsOf(approved, flight, retry);
      && Distinct(ItemNames(parts.ready)) && StillToMerge(parts.ready, merged) &&
        AllJustified(cfg, signatures, heard, parts.ready)
      && Queue(parts.pending, merged) && AtMostOnce(NameBag(parts.pending))
      && Queue(parts.red, merged) && AtMostOnce(NameBag(parts.red))
      && (forall x, y | x in parts.ready && y in parts.pending :: x.src.name != y.src.name)
      && (forall x, y | x in parts.ready && y in parts.red :: x.src.name != y.src.name)
      && (forall x, y | x in parts.pending && y in parts.red :: x.src.name != y.src.name)
  {
    var parts := PartsOf(approved, flight, retry);
    ChosenDistinct(approved, flight + retry, false);
    ChosenDistinct(approved, flight, true);
    ChosenDistinct(approved, retry, true);
    DistinctBag(ItemNames(parts.pending));
    DistinctBag(ItemNames(parts.red));
  }

  lemma NameFrom(part: seq<Item>, whole: seq<Item>, it: Item) returns (w: Item)
    requires it in part && NameBag(part) <= NameBag(whole)
    ensures w in whole && w.src.name == it.src.name
  {
    InNames(part, it);
    assert it.src.name in multiset(ItemNames(part));
    assert it.src.name in multiset(ItemNames(whole));
    var i :| 0 <= i < |whole| && ItemNames(whole)[i] == it.src.name;
    w := whole[i];
  }

  /** Parts of two lists with no name in common have no name in common. */
  lemma PartsStayApart(part: seq<Item>, whole: seq<Item>, other: seq<Item>)
    requires NameBag(part) <= NameBag(whole) && forall x, y | x in whole && y in other :: x.src.name != y.src.name
    ensures forall x, y | x in part && y in other :: x.src.name != y.src.name
  {
    forall x, y | x in part && y in other ensures x.src.name != y.src.name {
      var w := NameFrom(part, whole, x);
    }
  }

  /** The red ones from the start and the ones that turned red while waiting make one queue. */
  lemma QueuesTogether(a: seq<Item>, b: seq<Item>, merged: set<(string, string)>)
    requires Queue(a, merged) && Queue(b, merged) && AtMostOnce(NameBag(a)) && AtMostOnce(NameBag(b))
    requires forall x, y | x in a && y in b :: x.src.name != y.src.name
    ensures Queue(a + b, merged) && AtMostOnce(NameBag(a + b))
  {
    DistinctBag(ItemNames(a));
    DistinctBag(ItemNames(b));
    DistinctTogether(a, b);
    DistinctBag(ItemNames(a + b));
  }

  /** Executing branches apart from these leaves them a queue. */
  lemma ApartStaysQueue(cfg: Config, rows: seq<Row>, w: State, w': State, done: seq<Item>, whole: seq<Item>,
      queue: seq<Item>)
    requires BatchStep(cfg, rows, w, w', done) && NameBag(done) <= NameBag(whole)
    requires Queue(queue, w.merged) && forall x, y | x in whole && y in queue :: x.src.name != y.src.name
    ensures Queue(queue, w'.merged)
  {
    PartsStayApart(done, whole, queue);
    OthersStayUnmerged(cfg, rows, w, w', done, queue);
  }

  /** What was executed while waiting, and after the last look, are different branches. */
  lemma DoneTogether(waiting: seq<Item>, tally: Tally, red: seq<Item>, last: seq<Item>)
    requires Settles(tally, waiting) && AtMostOnce(NameBag(waiting)) && NameBag(last) <= NameBag(red + tally.late)
    requires Distinct(ItemNames(last))
    requires forall x, y | x in waiting && y in red :: x.src.name != y.src.name
    ensures Distinct(ItemNames(tally.done + last))
    ensures NameBag(tally.done + last) <= NameBag(waiting + red)
  {
    BagsApart(tally.done, tally.late, NameBag(waiting));
    PartsStayApart(tally.done, waiting, red);
    PartDistinct(ItemNames(tally.done), NameBag(waiting));
    forall x, y | x in tally.done && y in last ensures x.src.name != y.src.name {
      var w := NameFrom(last, red + tally.late, y);
    }
    DistinctTogether(tally.done, last);
    NameBagSum(red, tally.late);
    NameBagSum(tally.done, last);
    NameBagSum(waiting, red);
  }

  /** The red ones, with those that turned red while waiting, are one queue for the last look. */
  lemma RedQueue(cfg: Config, rows: seq<Row>, w: State, w': State, waiting: seq<Item>, tally: Tally, red: seq<Item>)
    requires Settles(tally, waiting) && AtMostOnce(NameBag(waiting)) && Queue(waiting, w.merged)
    requires BatchStep(cfg, rows, w, w', tally.done)
    requires Queue(red, w.merged) && AtMostOnce(NameBag(red))
    requires forall x, y | x in waiting && y in red :: x.src.name != y.src.name
    ensures Queue(red + tally.late, w'.merged) && AtMostOnce(NameBag(red + tally.late))
  {
    ApartStaysQueue(cfg, rows, w, w', tally.done, waiting, red);
    StillQueue(cfg, rows, w, w', tally, waiting, tally.late);
    QueuesTogether(red, tally.late, w'.merged);
  }

  /** The executed heads are the planned ones, red branches that were cut again aside. */
  lemma SameWorkTogether(waiting: seq<Item>, tally: Tally, red: seq<Item>, last: seq<Item>)
    requires Settles(tally, waiting) && SameWork(last, red + tally.late)
    ensures SameWork(tally.done + last, waiting + red)
  {
    PartIsSameWork(red + tally.late, waiting + red);
    SameWorkTwice(last, red + tally.late, waiting + red);
    PartIsSameWork(waiting, waiting + red);
    SameWorkTwice(tally.done, waiting, waiting + red);
  }

  lemma BagPartDistinct(part: seq<Item>, whole: seq<Item>)
    requires NameBag(part) <= NameBag(whole) && AtMostOnce(NameBag(whole))
    ensures Distinct(ItemNames(part))
  {
    PartDistinct(ItemNames(part), NameBag(whole));
  }

  lemma JustifiedTogether(cfg: Config, signatures: Signatures, heard: Evidence, a: seq<Item>, b: seq<Item>)
    requires AllJustified(cfg, signatures, heard, a) && AllJustified(cfg, signatures, heard, b)
    ensures AllJustified(cfg, signatures, heard, a + b)
  {
  }

  /** The parts come from the approved list and share no name. */
  ghost predicate PartsApart3(approved: seq<Item>, parts: Parts) {
    && (forall x, y | x in parts.ready && y in parts.pending :: x.src.name != y.src.name)
    && (forall x, y | x in parts.ready && y in parts.red :: x.src.name != y.src.name)
    && (forall x, y | x in parts.pending && y in parts.red :: x.src.name != y.src.name)
    && (forall it | it in parts.ready :: it in approved)
    && (forall it | it in parts.pending :: it in approved)
    && (forall it | it in parts.red :: it in approved)
  }

  /** The ready branches and the rest together: each once, each approved. */
  lemma AllDone(approved: seq<Item>, parts: Parts, rest: seq<Item>)
    requires PartsApart3(approved, parts) && Distinct(ItemNames(parts.ready)) && Distinct(ItemNames(rest))
    requires NameBag(rest) <= NameBag(parts.pending + parts.red)
    ensures Distinct(ItemNames(parts.ready + rest))
    ensures forall d | d in parts.ready + rest :: exists p | p in approved :: p.src.name == d.src.name
  {
    forall d | d in rest ensures exists p | p in parts.pending + parts.red :: p.src.name == d.src.name {
      var w := NameFrom(rest, parts.pending + parts.red, d);
    }
    forall x, y | x in parts.ready && y in rest ensures x.src.name != y.src.name {
      var p :| p in parts.pending + parts.red && p.src.name == y.src.name;
    }
    DistinctTogether(parts.ready, rest);
  }

  lemma AllSameWork(approved: seq<Item>, parts: Parts, rest: seq<Item>)
    requires PartsApart3(approved, parts) && SameWork(rest, parts.pending + parts.red)
    ensures SameWork(parts.ready + rest, approved)
  {
    PartIsSameWork(parts.ready, approved);
    PartIsSameWork(parts.pending + parts.red, approved);
    SameWorkTwice(rest, parts.pending + parts.red, approved);
  }

  /** What was executed while waiting is not looked at again. */
  lemma DoneApart(waiting: seq<Item>, tally: Tally, red: seq<Item>)
    requires Settles(tally, waiting) && AtMostOnce(NameBag(waiting))
    requires forall x, y | x in waiting && y in red :: x.src.name != y.src.name
    ensures forall it | it in tally.done :: it.src.name !in NameSet(red + tally.late)
  {
    BagsApart(tally.done, tally.late, NameBag(waiting));
    PartsStayApart(tally.done, waiting, red);
  }

  /** Waiting and the last look, put together. */
  lemma RestTogether(cfg: Config, rows: seq<Row>, signatures: Signatures, w: State, waited: State, w': State,
                     waiting: seq<Item>, tally: Tally, red: seq<Item>, last: seq<Item>,
                     known: Evidence, heard: Evidence)
    requires Settles(tally, waiting) && AtMostOnce(NameBag(waiting))
    requires NameBag(last) <= NameBag(red + tally.late) && AtMostOnce(NameBag(red + tally.late))
    requires forall x, y | x in waiting && y in red :: x.src.name != y.src.name
    requires BatchStep(cfg, rows, w, waited, tally.done) && BatchStep(cfg, rows, waited, w', last)
    requires AllJustified(cfg, signatures, known, tally.done) && AllJustified(cfg, signatures, heard, last)
    requires Later(known, heard, NameSet(red + tally.late))
    ensures
      var done := tally.done + last;
      && BatchStep(cfg, rows, w, w', done) && Distinct(ItemNames(done)) && NameBag(done) <= NameBag(waiting + red)
      && AllJustified(cfg, signatures, heard, done)
      && (SameWork(last, red + tally.late) ==> SameWork(done, waiting + red))
  {
    BatchTwice(cfg, rows, w, waited, w', tally.done, last);
    BagPartDistinct(last, red + tally.late);
    DoneTogether(waiting, tally, red, last);
    DoneApart(waiting, tally, red);
    StaysJustified(cfg, signatures, known, heard, NameSet(red + tally.late), tally.done);
    JustifiedTogether(cfg, signatures, heard, tally.done, last);
    if SameWork(last, red + tally.late) {
      SameWorkTogether(waiting, tally, red, last);
    }
  }

  // ------------------------------------------------------------ what a run promises

  /**
   Every executed branch is listed, not held, executed once, in a family that passed the gate,
   and justified: CI was waived, was green for its very fork head, or -- never having been
   green -- a local build has to clear each of its targets.
   */
  ghost predicate RightlyExecuted(cfg: Config, signatures: Signatures, heard: Evidence, held: set<string>,
                                  listed: seq<string>, passed: set<string>, done: seq<Item>)
  {
    && Distinct(ItemNames(done)) && AllJustified(cfg, signatures, heard, done)
    && forall d | d in done :: d.src.name in listed && d.src.name !in held && Stem(cfg, d) in passed
  }

  /** The first look's piles, as name sets, sort every branch on the list. */
  lemma PilesRouted(cfg: Config, signatures: Signatures, heard: Evidence, held: set<string>, look: Look,
      names: seq<string>)
    requires LookBag(look) == multiset(names) && Distinct(names)
    requires forall it | it in look.ready :: it.src.name !in held && Justified(cfg, signatures, heard, it.src)
    requires forall it | it in look.still + look.late :: it.src.name !in held && Untried(it.src)
    ensures
      var flight, retry := NameSet(look.still), NameSet(look.late);
      && flight !! retry
      && Routed(cfg, signatures, heard, held, look.ready + look.still + look.late, flight, retry)
      && AtMostOnce(NameBag(look.ready + look.still + look.late))
      && forall it | it in look.ready + look.still + look.late :: it.src.name in names
  {
    var all := look.ready + look.still + look.late;
    NameBagSum(look.ready, look.still);
    NameBagSum(look.ready + look.still, look.late);
    DistinctBag(names);
    assert forall n :: NameBag(all)[n] <= multiset(names)[n];
    BagsApart(look.ready, look.still, multiset(names));
    BagsApart(look.ready, look.late, multiset(names));
    BagsApart(look.still, look.late, multiset(names));
    NameSetMeaning(look.still);
    NameSetMeaning(look.late);
    forall it | it in all ensures it.src.name in names {
      InNames(all, it);
      assert it.src.name in NameBag(all);
      assert it.src.name in multiset(names);
    }
  }

  function NameSet(items: seq<Item>): set<string> {
    set it | it in items :: it.src.name
  }

  lemma NameSetMeaning(items: seq<Item>)
    ensures forall n :: n in NameSet(items) <==> exists it | it in items :: it.src.name == n
  {
  }

  lemma PartOfBag(whole: multiset<string>, a: multiset<string>, b: multiset<string>, c: multiset<string>)
    requires whole == a + b + c
    ensures a <= whole
  {
  }

  lemma PartOfBag4(whole: multiset<string>, a: multiset<string>, b: multiset<string>, c: multiset<string>,
      d: multiset<string>)
    requires whole == a + b + c + d
    ensures a <= whole
  {
  }

  /** Every branch waited for or called red has its end. */
  lemma RestCounted(waiting: seq<Item>, tally: Tally, red: seq<Item>, last: seq<Item>, gone: seq<string>,
      dropped: seq<string>)
    requires Settles(tally, waiting) && NameBag(red + tally.late) == NameBag(last) + multiset(gone) + multiset(dropped)
    ensures NameBag(waiting + red) ==
      NameBag(tally.done + last) + multiset(tally.gone + gone) + multiset(dropped) + NameBag(tally.left)
  {
    NameBagSum(waiting, red);
    NameBagSum(red, tally.late);
    NameBagSum(tally.done, last);
    hide NameBag;
    BagsAddUp(NameBag(waiting), NameBag(red), NameBag(tally.done), NameBag(tally.late), multiset(tally.gone),
      NameBag(tally.left),
      NameBag(last), multiset(gone), multiset(dropped));
  }

  lemma BagsAddUp(w: multiset<string>, r: multiset<string>, d: multiset<string>, l: multiset<string>,
      g: multiset<string>,
                  f: multiset<string>, d': multiset<string>, g': multiset<string>, x: multiset<string>)
    requires w == d + l + g + f && r + l == d' + g' + x
    ensures w + r == d + d' + (g + g') + x + f
  {
    forall n: string ensures (w + r)[n] == (d + d' + (g + g') + x + f)[n] {
      assert (r + l)[n] == (d' + g' + x)[n];
    }
  }

  /** Asking about the waiting ones and then about the red ones is asking about these. */
  lemma RestAsked(waiting: seq<Item>, tally: Tally, red: seq<Item>, a: Evidence, b: Evidence, c: Evidence)
    requires Settles(tally, waiting) && Later(a, b, NameSet(waiting)) && Later(b, c, NameSet(red + tally.late))
    ensures Later(a, c, NameSet(waiting + red))
  {
    hide Later;
    LaterWider(a, b, NameSet(waiting), NameSet(waiting + red));
    LaterWider(b, c, NameSet(red + tally.late), NameSet(waiting + red));
    LaterTwice(a, b, c, NameSet(waiting + red));
  }

  /** The ready ones are not asked about again. */
  lemma ReadyNotAsked(approved: seq<Item>, parts: Parts)
    requires PartsApart3(approved, parts)
    ensures forall it | it in parts.ready :: it.src.name !in NameSet(parts.pending + parts.red)
  {
  }

  lemma NotedFromEarlier(outcomes: seq<Event>, from: nat, later: nat, names: seq<string>)
    requires Noted(outcomes, later, names) && from <= later
    ensures Noted(outcomes, from, names)
  {
  }

  /** What became of the parts of an approved list: executed once, given up, dropped, or still waiting. */
  ghost predicate PartsDone(approved: seq<Item>, parts: Parts, left: seq<Item>, done: seq<Item>, gone: seq<string>,
      dropped: seq<string>) {
    && Distinct(ItemNames(done)) && (forall d | d in done :: exists p | p in approved :: p.src.name == d.src.name)
    && NameBag(parts.ready) + NameBag(parts.pending + parts.red) ==
         NameBag(done) + multiset(gone) + multiset(dropped) + NameBag(left)
  }

  lemma PartsAddUp(approved: seq<Item>, parts: Parts, left: seq<Item>, rest: seq<Item>, gone: seq<string>,
      dropped: seq<string>)
    requires PartsApart3(approved, parts) && Distinct(ItemNames(parts.ready)) && Distinct(ItemNames(rest))
    requires NameBag(parts.pending + parts.red) == NameBag(rest) + multiset(gone) + multiset(dropped) + NameBag(left)
    ensures PartsDone(approved, parts, left, parts.ready + rest, gone, dropped)
  {
    hide NameBag;
    PartOfBag4(NameBag(parts.pending + parts.red), NameBag(rest), multiset(gone), multiset(dropped), NameBag(left));
    AllDone(approved, parts, rest);
    NameBagSum(parts.ready, rest);
  }

  lemma BagOfCons(it: Item, rest: seq<Item>)
    ensures NameBag([it] + rest) == NameBag(rest) + multiset{it.src.name}
  {
    NameBagSum([it], rest);
    assert ItemNames([it]) == [it.src.name];
  }

  lemma ChosenOneMore(items: seq<Item>, names: set<string>, wanted: bool)
    requires items != []
    ensures NameBag(Chosen(items, names, wanted)) == NameBag(Chosen(items[1..], names, wanted)) +
      if (items[0].src.name in names) == wanted then multiset{items[0].src.name} else multiset{}
    ensures NameBag(items) == NameBag(items[1..]) + multiset{items[0].src.name}
  {
    hide NameBag;
    BagOfCons(items[0], Chosen(items[1..], names, wanted));
    BagOfCons(items[0], items[1..]);
    assert [items[0]] + items[1..] == items;
  }

  /** Chosen or not, every item is somewhere. */
  lemma {:induction false} ChosenOrNot(items: seq<Item>, names: set<string>)
    ensures NameBag(items) == NameBag(Chosen(items, names, true)) + NameBag(Chosen(items, names, false))
    decreases |items|
  {
    hide NameBag;
    if items == [] {
      EmptyBag();
    } else {
      hide Chosen;
      ChosenOrNot(items[1..], names);
      ChosenOneMore(items, names, true);
      ChosenOneMore(items, names, false);
    }
  }

  lemma EmptyBag()
    ensures NameBag([]) == multiset{}
  {
    assert ItemNames([]) == [];
  }

  lemma {:induction false} ChosenOfEither(items: seq<Item>, a: set<string>, b: set<string>)
    requires a !! b
    ensures NameBag(Chosen(items, a + b, true)) == NameBag(Chosen(items, a, true)) + NameBag(Chosen(items, b, true))
    decreases |items|
  {
    hide NameBag;
    if items == [] {
      EmptyBag();
    } else {
      hide Chosen;
      ChosenOfEither(items[1..], a, b);
      ChosenOneMore(items, a + b, true);
      ChosenOneMore(items, a, true);
      ChosenOneMore(items, b, true);
    }
  }

  /** The three parts hold every item of the list once. */
  lemma PartsHoldAll(items: seq<Item>, flight: set<string>, retry: set<string>)
    requires flight !! retry
    ensures var parts := PartsOf(items, flight, retry);
      NameBag(items) == NameBag(parts.ready) + NameBag(parts.pending + parts.red)
  {
    hide NameBag;
    ChosenOrNot(items, flight + retry);
    ChosenOfEither(items, flight, retry);
    NameBagSum(Chosen(items, flight, true), Chosen(items, retry, true));
  }

  /** A branch executed for a planned, approved one of the same name passed the same gate. */
  lemma SameGate(cfg: Config, signatures: Signatures, heard: Evidence, held: set<string>, listed: seq<string>,
                 passed: set<string>, plans: seq<Item>, approved: seq<Item>, done: seq<Item>)
    requires Distinct(ItemNames(done)) && AllJustified(cfg, signatures, heard, done)
    requires forall d | d in done :: exists p | p in approved :: p.src.name == d.src.name
    requires forall p | p in approved :: p in plans && Stem(cfg, p) in passed
    requires forall p | p in plans :: p.src.name in listed && p.src.name !in held
    ensures RightlyExecuted(cfg, signatures, heard, held, listed, passed, done)
  {
    forall d | d in done ensures d.src.name in listed && d.src.name !in held && Stem(cfg, d) in passed {
      var p :| p in approved && p.src.name == d.src.name;
    }
  }

  /** A batch of a run that heeds its ledger adds no pair twice, and none the ledger had. */
  lemma LedgerStaysUnique(cfg: Config, detached: bool, rows: seq<Row>, w: State, w': State, items: seq<Item>)
    requires Sound(cfg, detached, w) && !cfg.ignoreLedger && BatchStep(cfg, rows, w, w', items)
    ensures NoRepeats(NewRows(w, w')) && MergedPairs(NewRows(w, w')) !! MergedPairs(w.ledger)
  {
    var added := NewRows(w, w');
    forall r | r in added ensures Pair(r) !in MergedPairs(w.ledger) {
      var it :| it in items && RowOf(cfg, w, w', it, r);
    }
  }

  /** A part of a list of distinct names is no longer than any list it is drawn from. */
  lemma PartNoLonger(part: seq<Item>, whole: seq<Item>)
    requires Distinct(ItemNames(part)) && forall it | it in part :: it in whole
    ensures |part| <= |whole|
  {
    forall n | n in ItemNames(part) ensures n in ItemNames(whole) {
      var i :| 0 <= i < |part| && ItemNames(part)[i] == n;
      assert part[i] in part;
      InNames(whole, part[i]);
    }
    NoMoreThan(ItemNames(part), ItemNames(whole));
  }

  /** The names in all four piles of a look. */
  function LookBag(look: Look): multiset<string> {
    NameBag(look.ready) + NameBag(look.still) + NameBag(look.late) + multiset(look.gone)
  }

  lemma LookBagOneMore(look: Look, it: Item, after: Look)
    requires
      || after == look.(ready := look.ready + [it])
      || after == look.(still := look.still + [it])
      || after == look.(late := look.late + [it])
      || after == look.(gone := look.gone + [it.src.name])
    ensures LookBag(after) == LookBag(look) + multiset{it.src.name}
  {
    ItemsOneMore(look.ready, it);
    ItemsOneMore(look.still, it);
    ItemsOneMore(look.late, it);
    hide NameBag;
  }

  lemma ItemsOneMore(items: seq<Item>, it: Item)
    ensures NameBag(items + [it]) == NameBag(items) + multiset{it.src.name}
  {
    NameBagSum(items, [it]);
    assert ItemNames([it]) == [it.src.name];
  }
}
