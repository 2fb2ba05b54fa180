/**
 The part of tools/merge_branches.py that changes things: picking a branch onto a
 target, building it, pushing it and writing the ledger, and the run around that.

 git, GitHub, sbt, claude and the operator answer arbitrarily: each such answer is a
 havoc assignment, so every contract below holds whatever they say.
 */
module Backporting {
  import opened Wrappers
  import opened Routing
  import opened Repository
  import opened Planning
  import opened Bags
  import opened BatchState
  import opened Surveying

  class Backporter {
    const cfg: Config
    /** A worker in its own worktree has no local branches: it runs on a detached HEAD. */
    const detached: bool
    /** The ledger as it was read when the run started. */
    const startRows: seq<Row>

    var refs: Refs
    var remote: Remote
    var tips: map<string, History>
    var head: History
    var ready: set<string>
    var ledger: seq<Row>
    var merged: set<(string, string)>
    var outcomes: seq<Event>
    /** refs/backup: local commits that a reset to upstream would have dropped. */
    var backups: set<History>

    const held: set<string>
    const signatures: Signatures
    /** The diffs approved before, by change; and the heads merged before approvals were recorded. */
    const approvals: set<(string, nat)>
    const mergedHeads: set<(string, History)>
    var listed: seq<string>
    var validTargets: seq<string>

    /** The last answer GitHub gave about each branch, and the commit it is about. */
    ghost var answers: map<string, (History, CiState)>
    /** The families of branches the operator has said yes to. */
    ghost var saidYes: set<string>
    /** Every branch that execute() was called for, in order. */
    ghost var executed: seq<Item>
    /** Every push of this run that went through, in order. */
    ghost var published: seq<Publication>
    /** Every backport of this run, in order, with what was answered on the way. */
    ghost var trials: seq<Trial>
    /** The shas written into "(cherry picked from commit ...)" lines. */
    ghost var trailers: set<nat>

    ghost function W(): State
      reads this
    {
      State(refs, remote, tips, head, ready, ledger, merged, published, trials, trailers)
    }

    ghost function Heard(): Evidence
      reads this`answers, this`outcomes
    {
      Evidence(answers, outcomes)
    }

    /** A run about to start: the ledger read from its file, unless it is to be ignored. */
    constructor (cfg: Config, detached: bool, refs: Refs, remote: Remote, tips: map<string, History>, rows: seq<Row>,
                 held: set<string>, signatures: Signatures, approvals: set<(string, nat)>,
                   mergedHeads: set<(string, History)>)
      requires cfg.dryRun ==> !cfg.doPush && !cfg.doCompile
      requires forall t | t in refs.upstream :: t in remote && refs.upstream[t] <= remote[t]
      requires forall id | id in refs.objects :: refs.objects[id].id == id
      ensures Valid() && ready == {} && executed == [] && published == [] && trailers == {} && trials == [] &&
        saidYes == {}
      ensures this.cfg == cfg && this.remote == remote && this.refs == refs && ledger == rows &&
        this.detached == detached
    {
      this.cfg, this.detached, this.startRows := cfg, detached, rows;
      this.held, this.signatures, this.approvals, this.mergedHeads := held, signatures, approvals, mergedHeads;
      this.refs, this.remote, this.tips, this.head := refs, remote, tips, [];
      this.ready, this.ledger, this.merged := {}, rows, if cfg.ignoreLedger then {} else MergedPairs(rows);
      this.outcomes, this.backups, this.listed, this.validTargets := [], {}, [], [];
      this.answers, this.saidYes, this.executed, this.published, this.trials, this.trailers := map[], {}, [], [], [],
        {};
    }

    ghost predicate Valid()
      reads this
    {
      Sound(cfg, detached, W())
    }

    /** Upstream's branches mirror the push remote's, perhaps late. */
    ghost predicate Tracked()
      reads this
    {
      && (forall t | t in refs.upstream :: t in remote && refs.upstream[t] <= remote[t])
      && (forall t | t in ready :: t in remote && t in refs.upstream)
    }

    method Record(name: string, target: string, outcome: Outcome)
      modifies this`outcomes
      ensures outcomes == old(outcomes) + [Event(name, target, outcome)]
    {
      outcomes := outcomes + [Event(name, target, outcome)];
    }

    /** Move HEAD, and the local branch with it when one is checked out. */
    method MoveHead(target: string, to: History)
      modifies this`head, this`tips
      ensures head == to
      ensures tips == if detached then old(tips) else old(tips)[target := to]
    {
      head := to;
      if !detached {
        tips := tips[target := to];
      }
    }

    // ---------------------------------------------------------- pushing

    /** Anyone else may push to any branch at any time; they can only fast-forward. */
    method OthersPush()
      requires Tracked()
      modifies this`remote
      ensures Tracked() && Grew(old(remote), remote)
    {
      var more: Remote := *;
      remote := Extended(remote, more);
    }

    /** A fetch of the upstream mirror: it catches up with the push remote, but maybe not all the way. */
    method FetchUpstream(target: string)
      requires Tracked() && target in remote
      modifies this`refs
      ensures Tracked() && target in refs.upstream
      ensures refs == old(refs).(upstream := old(refs.upstream)[target := refs.upstream[target]])
    {
      var lag: nat := *;
      var seen := if target in refs.upstream then |refs.upstream[target]| else 0;
      var upTo := if seen <= lag <= |remote[target]| then lag else seen;
      refs := refs.(upstream := refs.upstream[target := remote[target][..upTo]]);
    }

    /** One `git push`: refused, rejected because it is no fast-forward, or landed whole. */
    method TryPush(name: string, target: string) returns (ok: bool, refused: bool)
      requires Tracked() && target in remote
      modifies this`remote, this`published
      ensures Tracked()
      ensures ok ==> !refused && old(remote[target]) <= head && remote == old(remote)[target := head]
      ensures published == old(published) +
        if ok then [Publication(name, target, |old(remote[target])|, head[|old(remote[target])|..])] else []
      ensures !ok ==> remote == old(remote) && (refused || !(remote[target] <= head))
    {
      refused := *;
      ok := !refused && remote[target] <= head;
      if ok {
        published := published + [Publication(name, target, |remote[target]|, head[|remote[target]|..])];
        remote := remote[target := head];
      }
    }

    /** Fetch the target -- from the push remote, or failing that the mirror -- and rebase onto it. */
    method RebaseOnTarget(target: string, ghost base: History, ghost series: History)
      returns (ok: bool, fetched: bool, ghost below: History)
      requires Tracked() && target in remote && base <= head && base <= remote[target] &&
        OursAbove(head, |base|, series)
      requires target in refs.upstream
      modifies this`refs, this`head, this`tips
      ensures Tracked() && base <= below && below <= head && below <= remote[target] &&
        OursAbove(head, |below|, series)
      ensures refs == old(refs).(upstream := refs.upstream) && refs.upstream.Keys == old(refs.upstream.Keys)
      ensures tips == if !ok || detached then old(tips) else old(tips)[target := head]
      ensures ok && fetched ==> remote[target] <= head
      ensures !ok ==> head == old(head)
    {
      var onto: History;
      fetched := *;
      if fetched {
        onto := remote[target];
      } else {
        FetchUpstream(target);
        onto := refs.upstream[target];
      }
      ok := *;
      below := base;
      if ok {
        var ids: seq<nat> := *;
        RebasedKeeps(head, onto, base, series, ids);
        RebasedCarries(head, onto, ids, series);
        below := if onto <= base then base else onto;
        MoveHead(target, Rebased(head, onto, ids));
      }
    }

    /** The last publication is this push: HEAD now tops the target, over `before`, with copies of `series`. */
    ghost predicate Arrival(name: string, target: string, before: History, series: History)
      reads this
    {
      && published != [] && target in remote && remote[target] == head && before <= head
      && var last := published[|published| - 1];
         && last.name == name && last.target == target && |before| <= last.at
         && InPlace(last, remote) && CopiesAbove(last.commits, 0, series) && HasAll(head, series)
    }

    /** One round of the retry loop: others may have pushed, we try, and on a race we rebase. */
    method PushRound(name: string, target: string, ghost base: History, ghost series: History)
      returns (round: Round, ghost below: History)
      requires Tracked() && target in remote && base <= head && base <= remote[target] &&
        OursAbove(head, |base|, series)
      requires target in refs.upstream
      modifies this`refs, this`remote, this`tips, this`head, this`published
      ensures Tracked() && Grew(old(remote), remote) && target in remote
      ensures refs == old(refs).(upstream := refs.upstream) && refs.upstream.Keys == old(refs.upstream.Keys)
      ensures round.end == Arrived ==> Arrival(name, target, old(remote[target]), series)
      ensures round.end == Arrived ==> published != [] && published[..|published| - 1] == old(published)
      ensures round.end != Arrived ==> published == old(published)
      ensures round.end != Retry ==> head == old(head) && tips == old(tips)
      ensures round.end == Retry ==> tips == if detached then old(tips) else old(tips)[target := head]
      ensures round.end == Retry ==> below <= head && below <= remote[target] && OursAbove(head, |below|, series)
      ensures round.end == Retry && round.fetched ==> remote[target] <= head
      ensures old(remote[target] <= head) && !round.othersPushed ==> round.end == Arrived || round.end == Refusal
    {
      var before := remote[target];
      OthersPush();
      var othersPushed := remote[target] != before;
      below := base;
      var ok, refused := TryPush(name, target);
      if ok || refused {
        return Round(if ok then Arrived else Refusal, othersPushed, true), below;
      }
      var rebased, fetched;
      rebased, fetched, below := RebaseOnTarget(target, base, series);
      round := Round(if rebased then Retry else RebaseConflict, othersPushed, fetched);
    }

    /** What a push has changed so far, success or not. */
    ghost predicate Touched(start: State, target: string)
      reads this
    {
      && Tracked() && target in remote && Grew(start.remote, remote)
      && tips == (if detached then start.tips else start.tips[target := head])
      && refs == start.refs.(upstream := refs.upstream) && refs.upstream.Keys == start.refs.upstream.Keys
    }

    /** Between two attempts: nothing is published, and above `below` HEAD is ours. */
    ghost predicate Trying(start: State, target: string, below: History, series: History)
      reads this
    {
      && Touched(start, target) && target in refs.upstream && published == start.published
      && below <= head && below <= remote[target] && OursAbove(head, |below|, series)
    }

    lemma TryingTouches(start: State, target: string, below: History, series: History)
      requires Trying(start, target, below, series)
      ensures Touched(start, target) && target in remote && published == start.published
    {
    }

    ghost predicate PushedFrom(start: State, name: string, target: string, series: History)
      reads this
    {
      && Touched(start, target) && target in start.remote && Arrival(name, target, start.remote[target], series)
      && published[..|published| - 1] == start.published
    }

    method PushAgain(name: string, target: string, ghost base: History, ghost series: History, ghost start: State)
      returns (round: Round, ghost below: History)
      requires Trying(start, target, base, series)
      modifies this`refs, this`remote, this`tips, this`head, this`published
      ensures round.end == Arrived ==> PushedFrom(start, name, target, series)
      ensures round.end == Retry ==> Trying(start, target, below, series)
      ensures Touched(start, target) && target in remote
      ensures round.end != Arrived ==> published == start.published
      ensures Undisturbed(round) && round.end == Retry ==> remote[target] <= head
      ensures old(target in remote && remote[target] <= head) && Undisturbed(round) ==> round.end == Arrived
    {
      hide OursAbove, InPlace;
      ghost var before := head;
      round, below := PushRound(name, target, base, series);
      assert start.tips[target := before][target := head] == start.tips[target := head];
    }

    /**
     Push HEAD, rebasing up to three times on a target that has moved on. A success leaves the
     remote at our HEAD, having published nothing but copies of `series`, with all of it on the
     target; a failure publishes nothing. It gives up when it is refused, in conflict, or late a
     third time. With nobody else pushing, a working fetch, no refusal and no rebase conflict the
     second attempt is the last.
     */
    method PushTarget(name: string, target: string, ghost base: History, ghost series: History)
      returns (ok: bool, ghost rounds: seq<Round>)
      requires Tracked() && target in remote && target in refs.upstream
      requires !detached ==> target in tips && tips[target] == head
      requires cfg.doPush ==> base <= head && base <= remote[target] && OursAbove(head, |base|, series)
      modifies this`refs, this`remote, this`tips, this`head, this`published
      ensures Touched(old(W()), target)
      ensures !cfg.doPush ==> ok && unchanged(this)
      ensures cfg.doPush && ok ==> PushedFrom(old(W()), name, target, series)
      ensures !ok ==> published == old(published) && cfg.doPush && PushLost(rounds)
      ensures Calm(rounds) ==> ok && |rounds| <= 2
    {
      hide OursAbove, InPlace, PushedFrom;
      assert !detached ==> tips == tips[target := head];
      if !cfg.doPush {
        return true, [];
      }
      ok, rounds := PushThrice(name, target, base, series);
    }

    method PushThrice(name: string, target: string, ghost base: History, ghost series: History)
      returns (ok: bool, ghost rounds: seq<Round>)
      requires Trying(W(), target, base, series)
      modifies this`refs, this`remote, this`tips, this`head, this`published
      ensures Touched(old(W()), target)
      ensures if ok then PushedFrom(old(W()), name, target, series) else published == old(published) && PushLost(rounds)
      ensures Calm(rounds) ==> ok && |rounds| <= 2
    {
      hide OursAbove, InPlace, Calm, Trying, Touched, PushedFrom, Tracked;
      rounds := [];
      ghost var below := base;
      TryingTouches(old(W()), target, below, series);
      for attempt := 1 to 4
        invariant Trying(old(W()), target, below, series) && target in remote
        invariant Touched(old(W()), target) && published == old(published)
        invariant |rounds| == attempt - 1 && (attempt > 1 ==> rounds[attempt - 2].end == Retry)
        invariant attempt > 1 && Calm(rounds) ==> remote[target] <= head && attempt == 2
      {
        var round;
        round, below := PushAgain(name, target, below, series, old(W()));
        CalmOneMore(rounds, round);
        rounds := rounds + [round];
        match round.end {
          case Arrived => return true, rounds;
          case Refusal => return false, rounds;
          case RebaseConflict => return false, rounds;
          case Retry =>
        }
      }
      return false, rounds;
    }

    // ---------------------------------------------------------- picking

    /**
     Pick the series one commit at a time: on top is, in order, a pick of each commit that was
     neither on the target already nor empty there. A conflict takes everything back.
     */
    method PickSeries(src: Source, target: string, series: History, withTrailer: bool)
      returns (ok: bool, ghost answers: seq<PickAnswer>)
      requires !detached ==> target in tips && tips[target] == head
      modifies this`head, this`tips, this`trailers
      ensures |answers| <= |series| && |answers| <= |src.commits|
      ensures ok <==> PicksOf(old(head), src, series, withTrailer, answers).Some?
      ensures ok ==> |answers| == |series| || |answers| == |src.commits|
      ensures head == old(head) + if ok then PicksOf(old(head), src, series, withTrailer, answers).value else []
      ensures tips == if detached then old(tips) else old(tips)[target := head]
      ensures old(trailers) <= trailers <= old(trailers) + if withTrailer then Ids(series) else {}
    {
      hide PicksOf, MarkedOn;
      var prePick := head;
      ghost var picked: History := [];
      answers := [];
      NothingPicked(prePick, src, series, withTrailer);
      for i := 0 to if |series| <= |src.commits| then |series| else |src.commits|
        invariant |answers| == i && PicksOf(prePick, src, series, withTrailer, answers) == Some(picked)
        invariant prePick == old(head) && head == prePick + picked
        invariant tips == if detached then old(tips) else old(tips)[target := head]
        invariant old(trailers) <= trailers <= old(trailers) + if withTrailer then Ids(series) else {}
      {
        var mine, commit := src.commits[i], series[i];
        var answer: PickAnswer := *;
        PicksOneMore(prePick, src, series, withTrailer, answers, answer);
        answers := answers + [answer];
        if MarkedOn(prePick, src.head, mine) { continue; }
        match answer {
          case Applied(id, patch) =>
            var created := PickedCommit(commit, withTrailer, id, patch);
            MoveHead(target, head + [created]);
            picked := picked + [created];
            if withTrailer {
              trailers := trailers + {commit.id};
            }
          case CameUpEmpty =>
          case Conflicted =>
            MoveHead(target, prePick);
            return false, answers;
        }
      }
      ok := true;
    }

    /** None failed: the build is off, or came out clean -- at once, or from scratch after a plain failure. */
    method CompileTarget() returns (clean: bool, ghost answers: seq<BuildAnswer>)
      ensures clean <==> !cfg.doCompile || BuildOk in answers
      ensures !cfg.doCompile ==> answers == []
      ensures cfg.doCompile && clean ==> answers == [BuildOk] || (cfg.cleanRetry && answers == [BuildBroken, BuildOk])
      ensures cfg.doCompile && !clean ==> answers != []
      ensures cfg.doCompile && !clean ==> BuildTimedOut in answers || |answers| == if cfg.cleanRetry then 2 else 1
    {
      answers := [];
      if !cfg.doCompile {
        return true, answers;
      }
      var attempts := if cfg.cleanRetry then 2 else 1;
      for number := 0 to attempts
        invariant |answers| == number && forall i | 0 <= i < number :: answers[i] == BuildBroken
      {
        var answer: BuildAnswer := *;
        answers := answers + [answer];
        if answer == BuildOk {
          return true, answers;
        }
        if answer == BuildTimedOut {
          return false, answers;
        }
      }
      clean := false;
    }

    /** Note a merge that really went out. */
    method RememberMerge(src: Source, target: string, landed: History)
      modifies this`ledger, this`merged
      ensures ledger == if cfg.doPush then old(ledger) +
        [Row(src.name, target, LastId(landed), src.head)] else old(ledger)
      ensures merged == if cfg.doPush then old(merged) + {(src.name, target)} else old(merged)
    {
      if !cfg.doPush {
        return;
      }
      ledger := ledger + [Row(src.name, target, LastId(landed), src.head)];
      merged := merged + {(src.name, target)};
    }

    // ---------------------------------------------------------- one (source, target) pair

    /** Put HEAD on the target: the local branch, or in a worktree the upstream tip. */
    method UseTarget(target: string) returns (ok: bool)
      requires Valid() && target in ready
      modifies this`head
      ensures W() == old(W()).(head := if ok then Start(detached, old(W()), target) else old(head))
    {
      ok := *;
      if ok {
        head := if detached then refs.upstream[target] else tips[target];
      }
    }

    /** The picks, until there is something to publish or a reason not to. */
    method PickOnto(src: Source, target: string, series: History, withTrailer: bool)
      returns (refusal: Option<Outcome>, ghost answers: seq<PickAnswer>)
      requires Valid() && target in ready && head == Start(detached, W(), target)
      modifies this`head, this`tips, this`trailers
      ensures !detached ==> target in old(tips)
      ensures |answers| <= |series| && |answers| <= |src.commits|
      ensures
        var picked := PicksOf(old(head), src, series, withTrailer, answers);
        && refusal == (if picked == None then Some(Conflict) else if picked == Some([]) then Some(NothingNew) else None)
        && head == old(head) + (if picked.Some? then picked.value else [])
        && (picked.Some? ==> |answers| == |series| || |answers| == |src.commits|)
      ensures refusal.Some? ==> W() == old(W()).(trailers := trailers)
      ensures refusal == None ==> Picked(cfg, detached, W(), target, old(head))
      ensures W() == old(W()).(head := head, trailers := trailers,
        tips := if detached then old(tips) else old(tips)[target := head])
      ensures old(trailers) <= trailers <= old(trailers) + if withTrailer then Ids(series) else {}
    {
      hide PicksOf;
      var prePick := head;
      var ok;
      ok, answers := PickSeries(src, target, series, withTrailer);
      assert !detached ==> old(tips)[target := prePick] == old(tips);
      if !ok {
        assert prePick + [] == prePick;
        return Some(Conflict), answers;
      }
      if |head| == |prePick| {
        assert head == prePick;
        return Some(NothingNew), answers;
      }
      return None, answers;
    }

    /** claude's verdict on the picked commits, and the operator's word. */
    method AskForReview() returns (alive: bool, verdict: ReviewVerdict, human: bool)
    {
      alive, verdict, human := *, *, *;
    }

    /** The review gate, then the build unless CI stands in for it. */
    method Cleared(src: Source, target: string) returns (refusal: Option<Outcome>, ghost gate: Gate)
      ensures refusal == None <==> Clears(cfg, src, target, gate)
      ensures refusal.Some? ==> refusal == Some(if PassesReview(cfg, gate) then BuildFailed else HeldForReview)
    {
      var alive, verdict, human := AskForReview();
      gate := Gate(alive, verdict, human, [], []);
      if !SanityCheck(cfg, alive, verdict, human) {
        return Some(HeldForReview), gate;
      }
      if !CiStandsIn(cfg, src, target) {
        var clean, builds := CompileTarget();
        gate := gate.(builds := builds);
        if !clean {
          return Some(BuildFailed), gate;
        }
      }
      return None, gate;
    }

    /** The commits of ours on HEAD, wherever the rebase left them. */
    method OursOnHead(created: History) returns (landed: History)
      ensures landed == LandedOn(head, created, 100) && forall c | c in landed :: c in head
    {
      landed := FindLanded(head, created, 100);
      LandedAreOurs(head, created, 100);
    }

    /** Push the picked series; a push that fails leaves nothing behind. */
    method PushPicked(src: Source, target: string, prePick: History) returns (pushed: bool, ghost rounds: seq<Round>)
      requires Picked(cfg, detached, W(), target, prePick)
      modifies this`refs, this`remote, this`tips, this`head, this`published
      ensures Tracked() && PushStep(cfg, detached, old(W()), W(), src, target, prePick, pushed)
      ensures !pushed ==> cfg.doPush && PushLost(rounds) && !Calm(rounds)
    {
      hide HasAll, AllRecorded, Behind, Calm, PushLost;
      ghost var created := head[|prePick|..];
      assert OursAbove(head, |prePick|, created) by {
        AllOursOnTop(head, prePick);
      }
      pushed, rounds := PushTarget(src.name, target, prePick, created);
      ghost var reached := head;
      if !pushed {
        MoveHead(target, prePick);
        assert !detached ==> old(tips)[target := reached][target := prePick] == old(tips)[target := prePick];
      }
    }

    method PushAndRecord(src: Source, target: string, prePick: History, ghost cleared: Gate)
      returns (landed: History, outcome: Outcome, ghost gate: Gate)
      requires Picked(cfg, detached, W(), target, prePick) && Clears(cfg, src, target, cleared)
      modifies this`refs, this`remote, this`tips, this`head, this`published, this`ledger, this`merged
      ensures Valid() && PublishStep(cfg, detached, old(W()), W(), src, target, prePick, landed, outcome, gate)
      ensures gate == cleared.(rounds := gate.rounds)
    {
      hide HasAll, CopiesAbove, Calm, PushLost, Clears, AllRecorded, LandedOn, InPlace, Behind;
      landed := [];
      var created := head[|prePick|..];
      var pushed, rounds := PushPicked(src, target, prePick);
      gate := cleared.(rounds := rounds);
      StillCleared(cfg, src, target, cleared, rounds);
      SteadyAgain(cfg, detached, old(W()), W().(published := old(published)), target, if pushed then head else prePick);
      if !pushed {
        NotPushed(cfg, detached, old(W()), W(), src, target, prePick, gate);
        return landed, PushFailed, gate;
      }
      outcome := if cfg.doPush then Pushed else WouldPush;
      landed := OursOnHead(created);
      ghost var arrived := W();
      RememberMerge(src, target, landed);
      RecordedAgain(cfg, detached, old(W()), arrived, W(), src, target, prePick, landed, gate);
    }

    /** The picked series, from the review gate to the ledger; any refusal rolls back to `prePick`. */
    method Publish(src: Source, target: string, prePick: History)
      returns (landed: History, outcome: Outcome, ghost gate: Gate)
      requires Picked(cfg, detached, W(), target, prePick)
      modifies this`refs, this`remote, this`tips, this`head, this`published, this`ledger, this`merged
      ensures Valid() && PublishStep(cfg, detached, old(W()), W(), src, target, prePick, landed, outcome, gate)
    {
      var refusal, cleared := Cleared(src, target);
      if refusal.Some? {
        MoveHead(target, prePick);
        SteadyAgain(cfg, detached, old(W()), W(), target, prePick);
        return [], refusal.value, cleared;
      }
      landed, outcome, gate := PushAndRecord(src, target, prePick, cleared);
    }

    /** backport() from the checked-out target on. */
    method PickAndPublish(src: Source, target: string, series: History, withTrailer: bool)
      returns (landed: History, outcome: Outcome)
      requires Valid() && target in ready && head == Start(detached, W(), target)
      modifies this`refs, this`remote, this`tips, this`head, this`published, this`ledger, this`merged,
        this`trailers, this`trials
      ensures Valid() && PairStep(cfg, detached, old(W()), W(), src, target, series, withTrailer, landed, outcome)
      ensures outcome != CheckoutFailed
    {
      hide PicksOf, Sound, Steady, PairStep, Picked, Gated, OthersUntouched, OneMore, CopiesAbove, HasAll, LandedOn;
      ghost var before := W();
      var prePick := head;
      var refusal, picks := PickOnto(src, target, series, withTrailer);
      ghost var picked, gate := W(), Gate(false, NoVerdict, false, [], []);
      if refusal.Some? {
        landed, outcome := [], refusal.value;
      } else {
        landed, outcome, gate := Publish(src, target, prePick);
      }
      ghost var done, trial := W(), Trial(src.name, target, series, withTrailer, true, picks, gate, landed, outcome);
      trials := trials + [trial];
      if refusal.Some? {
        SoundWhateverTried(cfg, detached, before, W());
        NothingPublished(cfg, detached, before, W(), src, trial);
      } else {
        SoundWhateverTried(cfg, detached, done, W());
        PickedThenPublished(cfg, detached, before, picked, done, W(), src, trial);
      }
    }

    /** backport(): land the branch on `target`; `onMaster` is the series as it landed on master, if it did. */
    method Backport(src: Source, target: string, onMaster: History) returns (landed: History, outcome: Outcome)
      requires Valid() && target in ready
      modifies this`refs, this`remote, this`tips, this`head, this`published, this`ledger, this`merged,
        this`trailers, this`trials, this`outcomes
      ensures Valid() && PairStep(cfg, detached, old(W()), W(), src, target, ToPick(src.commits, onMaster),
        onMaster != [], landed, outcome)
      ensures outcomes == old(outcomes) + [Event(src.name, target, outcome)]
    {
      hide PicksOf, ToPick, HasAll, CopiesAbove, PairStep, Sound;
      var series := ToPick(src.commits, onMaster);
      var there := UseTarget(target);
      if !there {
        landed, outcome := [], CheckoutFailed;
        ghost var gate := Gate(false, NoVerdict, false, [], []);
        ghost var trial := Trial(src.name, target, series, onMaster != [], false, [], gate, landed, outcome);
        trials := trials + [trial];
        SoundWhateverTried(cfg, detached, old(W()), W());
        NothingPublished(cfg, detached, old(W()), W(), src, trial);
      } else {
        SoundWhateverTried(cfg, detached, old(W()), W());
        landed, outcome := PickAndPublish(src, target, series, onMaster != []);
        HeadForgotten(cfg, detached, old(W()), Start(detached, old(W()), target), W(), src, target, series,
          onMaster != [], landed, outcome);
      }
      Record(src.name, target, outcome);
    }

    // ---------------------------------------------------------- one source branch

    /** Point the target at the upstream tip, keeping anything local first. */
    method EnsureTarget(target: string) returns (ok: bool, ghost refused: bool)
      requires Valid()
      modifies this`tips, this`head, this`ready, this`backups
      ensures Valid() && (ok <==> target in ready) && old(ready) <= ready <= old(ready) + {target}
      ensures ok <==> target in old(ready) || (target in refs.upstream && !refused)
      ensures refused ==> !detached
      ensures W() == old(W()).(tips := tips, head := head, ready := ready)
      // Nothing local is lost: a branch keeps its commits, or they are in the backups.
      ensures backups >= old(backups)
      ensures forall t | t in old(tips) :: t in tips && (old(tips[t]) <= tips[t] || old(tips[t]) in backups)
    {
      refused := false;
      if target in ready {
        return true, refused;
      }
      if target !in refs.upstream {
        return false, refused;
      }
      if !detached {
        if target in tips && !(tips[target] <= refs.upstream[target]) {
          backups := backups + {tips[target]};
        }
        var reset: bool := *;
        if !reset {
          return false, true;
        }
        head := refs.upstream[target];
        tips := tips[target := head];
      }
      ready := ready + {target};
      TargetReady(cfg, detached, old(W()), target, head);
      return true, refused;
    }

    /** The series as it is on upstream master already, or as the ledger remembers it there. */
    method FindOnMaster(src: Source) returns (found: History)
      requires Valid()
      ensures found == SeriesOnMaster(refs, startRows, src)
      ensures forall c | c in found :: IsPublic(startRows, src.name, remote, c.id)
    {
      found := OnMasterAlready(src.commits, Remembered(refs, startRows, src.name),
        Span(src.base, if "master" in refs.upstream then refs.upstream["master"] else []));
      forall c | c in found ensures IsPublic(startRows, src.name, remote, c.id) {
        OnMasterIsPublic(cfg, detached, W(), startRows, src, c);
      }
    }

    /** execute(): master first, then the release branches, picked from what landed on master. */
    method Execute(it: Item) returns (ghost stuck: set<string>)
      requires Valid() && Distinct(it.targets) && forall t | t in it.targets :: (it.src.name, t) !in merged
      modifies this`refs, this`remote, this`tips, this`head, this`published, this`trials, this`ledger, this`merged,
        this`trailers, this`outcomes, this`ready, this`backups, this`executed
      ensures Valid() && BatchStep(cfg, startRows, old(W()), W(), [it])
      ensures refs == old(refs).(upstream := refs.upstream) && old(ready) <= ready && old(outcomes) <= outcomes
      ensures executed == old(executed) + [it]
      ensures Booked(old(W()), W(), outcomes[|old(outcomes)|..], AttemptsIn(it.src.name, MasterFirst(it.targets)))
      ensures old(trials) <= trials && PickedFromMaster(it.src.commits,
        if "master" in it.targets then [] else SeriesOnMaster(old(refs), startRows, it.src), trials[|old(trials)|..])
      ensures TrialsNoted(outcomes[|old(outcomes)|..], trials[|old(trials)|..], old(refs.upstream.Keys), stuck)
      ensures detached ==> stuck == {}
    {
      hide BatchStep, Booked, PickedFromMaster, SeriesOnMaster, TrialsNoted;
      executed := executed + [it];
      var onMaster: History := [];
      if "master" !in it.targets {
        onMaster := FindOnMaster(it.src);
      }
      MasterFirstMeaning(it.targets);
      stuck := ExecuteInOrder(it, MasterFirst(it.targets), onMaster);
    }

    lemma NothingNotedYet()
      ensures TrialsNoted([], [], refs.upstream.Keys, {})
    {
      assert EventsOf([]) == [];
    }

    method ExecuteInOrder(it: Item, order: seq<string>, found: History) returns (ghost stuck: set<string>)
      requires Valid() && Distinct(order)
      requires forall t | t in order :: t in it.targets && (it.src.name, t) !in merged
      requires forall c | c in found :: IsPublic(startRows, it.src.name, remote, c.id)
      modifies this`refs, this`remote, this`tips, this`head, this`published, this`trials, this`ledger, this`merged,
        this`trailers, this`outcomes, this`ready, this`backups
      ensures Valid() && BatchStep(cfg, startRows, old(W()), W(), [it])
      ensures refs == old(refs).(upstream := refs.upstream) && old(ready) <= ready && old(outcomes) <= outcomes
      ensures Booked(old(W()), W(), outcomes[|old(outcomes)|..], AttemptsIn(it.src.name, order))
      ensures old(trials) <= trials && PickedFromMaster(it.src.commits, found, trials[|old(trials)|..])
      ensures TrialsNoted(outcomes[|old(outcomes)|..], trials[|old(trials)|..], old(refs.upstream.Keys), stuck)
      ensures detached ==> stuck == {}
    {
      hide Booked, AttemptsIn, BatchStep, IsPublic, PickedFromMaster, OnMasterAfter, TrialsNoted, Sound;
      stuck := {};
      NothingNotedYet();
      assert outcomes[|old(outcomes)|..] == [];
      NothingTried(it.src.commits, found);
      assert trials[|old(trials)|..] == [];
      var onMaster := found;
      EmptyBatch(cfg, startRows, W(), W());
      BatchRelisted(cfg, startRows, W(), W(), [], [it]);
      NothingAttempted(W(), it.src.name, order);
      for i := 0 to |order|
        invariant Valid() && BatchStep(cfg, startRows, old(W()), W(), [it])
        invariant refs == old(refs).(upstream := refs.upstream) && old(ready) <= ready && old(outcomes) <= outcomes
        invariant forall j | i <= j < |order| :: (it.src.name, order[j]) !in merged
        invariant cfg.doPush ==> forall c | c in onMaster :: IsPublic(startRows, it.src.name, remote, c.id)
        invariant Booked(old(W()), W(), outcomes[|old(outcomes)|..], AttemptsIn(it.src.name, order[..i]))
        invariant old(trials) <= trials && PickedFromMaster(it.src.commits, found, trials[|old(trials)|..])
        invariant onMaster == OnMasterAfter(found, trials[|old(trials)|..])
        invariant refs.upstream.Keys == old(refs.upstream.Keys) && (detached ==> stuck == {})
        invariant TrialsNoted(outcomes[|old(outcomes)|..], trials[|old(trials)|..], old(refs.upstream.Keys), stuck)
      {
        ghost var before, seen, tried := W(), outcomes, trials;
        ghost var more;
        onMaster, more := ExecuteOne(it, order[i], onMaster);
        TrialsNotedTwice(|old(outcomes)|, seen, outcomes, old(trials), tried, trials, old(refs.upstream.Keys), stuck,
          more);
        stuck := stuck + more;
        TriedTwice(it.src.commits, found, old(trials), tried, trials);
        AttemptsOneMore(it.src.name, order, i);
        BookedBatches(cfg, startRows, old(W()), before, W(), [it], [it], old(outcomes), seen, outcomes,
          AttemptsIn(it.src.name, order[..i]), AttemptsIn(it.src.name, [order[i]]));
        BatchTwice(cfg, startRows, old(W()), before, W(), [it], [it]);
        BatchRelisted(cfg, startRows, old(W()), W(), [it] + [it], [it]);
      }
      assert order[..|order|] == order;
    }

    /** One target of a source; the series as it is on master afterwards. */
    method ExecuteOne(it: Item, target: string, onMaster: History)
      returns (landedOnMaster: History, ghost stuck: set<string>)
      requires Valid() && target in it.targets && (it.src.name, target) !in merged
      requires cfg.doPush ==> forall c | c in onMaster :: IsPublic(startRows, it.src.name, remote, c.id)
      modifies this`refs, this`remote, this`tips, this`head, this`published, this`trials, this`ledger, this`merged,
        this`trailers, this`outcomes, this`ready, this`backups
      ensures Valid() && BatchStep(cfg, startRows, old(W()), W(), [it])
      ensures refs == old(refs).(upstream := refs.upstream) && old(ready) <= ready && old(outcomes) <= outcomes
      ensures merged <= old(merged) + {(it.src.name, target)}
      ensures cfg.doPush ==> forall c | c in landedOnMaster :: IsPublic(startRows, it.src.name, remote, c.id)
      ensures target != "master" ==> landedOnMaster == onMaster
      ensures old(trials) <= trials && PickedFromMaster(it.src.commits, onMaster, trials[|old(trials)|..])
      ensures landedOnMaster == OnMasterAfter(onMaster, trials[|old(trials)|..])
      ensures Booked(old(W()), W(), outcomes[|old(outcomes)|..], AttemptsIn(it.src.name, [target]))
      ensures TrialsNoted(outcomes[|old(outcomes)|..], trials[|old(trials)|..], old(refs.upstream.Keys), stuck)
      ensures refs.upstream.Keys == old(refs.upstream.Keys) && (detached ==> stuck == {})
    {
      hide Booked, AttemptsIn, BatchStep, IsPublic, Sound, PickedFromMaster, OnMasterAfter, TrialsNoted;
      stuck := {};
      NothingNotedYet();
      NothingTried(it.src.commits, onMaster);
      assert trials[|old(trials)|..] == [];
      EmptyBatch(cfg, startRows, W(), W());
      BatchRelisted(cfg, startRows, W(), W(), [], [it]);
      OneAttempt(it.src.name, target);
      BookedNothing(W(), W());
      landedOnMaster := onMaster;
      if target == it.src.name {
        assert outcomes[|old(outcomes)|..] == [];
        return;
      }
      var there;
      there, stuck := ReadyOrNoted(it, target);
      if !there {
        assert trials[|old(trials)|..] == [];
        return;
      }
      ghost var ensured := W();
      stuck := {};
      landedOnMaster := BackportOne(it, target, onMaster);
      assert ensured.trials == old(trials);
      BatchTwice(cfg, startRows, old(W()), ensured, W(), [it], [it]);
      BatchRelisted(cfg, startRows, old(W()), W(), [it] + [it], [it]);
      BookedSince(cfg, startRows, old(W()), ensured, W(), [it], outcomes[|old(outcomes)|..], [(it.src.name, target)]);
    }

    /** Make the target ready, or note that there is no such target. */
    method ReadyOrNoted(it: Item, target: string) returns (there: bool, ghost stuck: set<string>)
      requires Valid()
      modifies this`tips, this`head, this`ready, this`backups, this`outcomes
      ensures Valid() && BatchStep(cfg, startRows, old(W()), W(), [it]) && NewRows(old(W()), W()) == []
      ensures W() == old(W()).(tips := tips, head := head, ready := ready) && old(ready) <= ready
      ensures there ==> target in ready && outcomes == old(outcomes)
      ensures old(outcomes) <= outcomes
      ensures !there ==> Booked(old(W()), W(), outcomes[|old(outcomes)|..], [(it.src.name, target)])
      ensures !there ==> TrialsNoted(outcomes[|old(outcomes)|..], [], old(refs.upstream.Keys), stuck)
      ensures detached ==> stuck == {}
    {
      hide Booked, BatchStep;
      ghost var refused;
      there, refused := EnsureTarget(target);
      stuck := if refused then {target} else {};
      EmptyBatch(cfg, startRows, old(W()), W());
      BatchRelisted(cfg, startRows, old(W()), W(), [], [it]);
      if !there {
        Record(it.src.name, target, NoSuchTarget);
        BookedOne(old(W()), W(), it.src.name, target, NoSuchTarget);
        OneTrialNoted(Event(it.src.name, target, NoSuchTarget), [], old(refs.upstream.Keys), stuck);
      }
    }

    /** One target that is ready. */
    method BackportOne(it: Item, target: string, onMaster: History) returns (landedOnMaster: History)
      requires Valid() && target in ready && target in it.targets && (it.src.name, target) !in merged
      requires cfg.doPush ==> forall c | c in onMaster :: IsPublic(startRows, it.src.name, remote, c.id)
      modifies this`refs, this`remote, this`tips, this`head, this`published, this`trials, this`ledger, this`merged,
        this`trailers, this`outcomes
      ensures Valid() && BatchStep(cfg, startRows, old(W()), W(), [it])
      ensures refs == old(refs).(upstream := refs.upstream) && old(outcomes) <= outcomes
      ensures merged <= old(merged) + {(it.src.name, target)}
      ensures cfg.doPush ==> forall c | c in landedOnMaster :: IsPublic(startRows, it.src.name, remote, c.id)
      ensures target != "master" ==> landedOnMaster == onMaster
      ensures old(trials) <= trials && PickedFromMaster(it.src.commits, onMaster, trials[|old(trials)|..])
      ensures landedOnMaster == OnMasterAfter(onMaster, trials[|old(trials)|..])
      ensures Booked(old(W()), W(), outcomes[|old(outcomes)|..], [(it.src.name, target)])
      ensures TrialsNoted(outcomes[|old(outcomes)|..], trials[|old(trials)|..], old(refs.upstream.Keys), {})
      ensures refs.upstream.Keys == old(refs.upstream.Keys)
    {
      hide Booked, BatchStep, PickedFromMaster, OnMasterAfter, TrialsNoted, AsAnswered, HasAll, CopiesAbove, PicksAbove,
        PickedIn, LandedOn, InPlace, Sound;
      var landed, outcome := Backport(it.src, target, onMaster);
      PairBatch(cfg, detached, startRows, old(W()), W(), it, target, onMaster, landed, outcome);
      PairProgress(cfg, detached, old(W()), W(), it.src, target, ToPick(it.src.commits, onMaster), onMaster != [],
        landed, outcome);
      BookedOne(old(W()), W(), it.src.name, target, outcome);
      landedOnMaster := onMaster;
      forall c | c in onMaster && cfg.doPush ensures IsPublic(startRows, it.src.name, remote, c.id) {
        StaysPublic(startRows, it.src.name, old(remote), remote, c.id);
      }
      if target == "master" {
        landedOnMaster := landed;
      }
      TriedOneMore(it.src.commits, onMaster, trials[|old(trials)|..]);
      OneTrialNoted(Event(it.src.name, target, outcome), trials[|old(trials)|..], old(refs.upstream.Keys), {});
      assert outcomes[|old(outcomes)|..] == [Event(it.src.name, target, outcome)];
    }

    // ---------------------------------------------------------- the run

    /** merge_all(), one branch after the other. */
    method MergeAll(work: seq<Item>)
      requires Valid() && StillToMerge(work, merged) && Distinct(ItemNames(work))
      modifies this`refs, this`remote, this`tips, this`head, this`published, this`trials, this`ledger, this`merged,
        this`trailers, this`outcomes, this`ready, this`backups, this`executed
      ensures Valid() && BatchStep(cfg, startRows, old(W()), W(), work)
      ensures refs == old(refs).(upstream := refs.upstream) && old(ready) <= ready && old(outcomes) <= outcomes
      ensures executed == old(executed) + work
      ensures Booked(old(W()), W(), outcomes[|old(outcomes)|..], Attempts(work))
    {
      hide Sound, BatchStep, Booked, Attempts, AttemptsIn, MasterFirst;
      EmptyBatch(cfg, startRows, W(), W());
      NoBatchAttempted(W(), work);
      for i := 0 to |work|
        invariant Valid() && BatchStep(cfg, startRows, old(W()), W(), work[..i])
        invariant refs == old(refs).(upstream := refs.upstream) && old(ready) <= ready && old(outcomes) <= outcomes
        invariant executed == old(executed) + work[..i]
        invariant Booked(old(W()), W(), outcomes[|old(outcomes)|..], Attempts(work[..i]))
      {
        var it := work[i];
        forall d | d in work[..i] ensures d.src.name != it.src.name {
          var j :| 0 <= j < i && work[j] == d;
          assert ItemNames(work)[j] != ItemNames(work)[i];
        }
        OthersStayUnmerged(cfg, startRows, old(W()), W(), work[..i], [it]);
        assert it in [it];
        ghost var before, seen := W(), outcomes;
        var _ := Execute(it);
        BatchTwice(cfg, startRows, old(W()), before, W(), work[..i], [it]);
        BatchAttemptsOneMore(work, i);
        BookedBatches(cfg, startRows, old(W()), before, W(), work[..i], [it], old(outcomes), seen, outcomes,
          Attempts(work[..i]), AttemptsIn(it.src.name, MasterFirst(it.targets)));
        assert work[..i] + [it] == work[..i + 1];
      }
      assert work[..|work|] == work;
    }

    /** Ask GitHub about a branch's commit. */
    method AskCi(name: string, of: History) returns (state: CiState)
      modifies this`answers
      ensures answers == old(answers)[name := (of, state)]
    {
      state := *;
      answers := answers[name := (of, state)];
    }

    /** Fetch the fork: its branches may have moved, come or gone. */
    method FetchFork()
      requires Valid()
      modifies this`refs
      ensures Valid() && refs == old(refs).(fork := refs.fork)
    {
      var fork: map<string, History> := *;
      RefsMoved(cfg, detached, W(), fork, refs.local);
      refs := refs.(fork := fork);
    }

    /** How one look at a branch that was waiting for CI came out. */
    method LookAgain(it: Item) returns (now: Item, state: Option<CiState>, gone: Outcome)
      modifies this`answers
      ensures state == None ==> answers == old(answers)
      ensures state.Some? ==> answers == old(answers)[it.src.name := (it.src.forkHead, state.value)]
      ensures now.targets == it.targets && now.src == it.src.(ciGreen := now.src.ciGreen, ciCovers := now.src.ciCovers)
      ensures state == Some(Passing) ==> now.src == CheckCoverage(signatures, it.src.(ciGreen := true))
      ensures state != Some(Passing) ==> now == it
      ensures match ResolveOnFork(refs, it.src.name, cfg.strip)
        case None => state == None && gone == Vanished
        case Some(found) => if found.1 != it.src.forkHead then state == None && gone == Moved else state.Some?
    {
      now, gone := it, Vanished;
      match ResolveOnFork(refs, it.src.name, cfg.strip)
      case None => return now, None, Vanished;
      case Some(found) =>
        if found.1 != it.src.forkHead {
          return now, None, Moved;
        }
        var answer := AskCi(it.src.name, found.1);
        state := Some(answer);
        if answer == Passing {
          now := it.(src := CheckCoverage(signatures, it.src.(ciGreen := true)));
        }
    }

    /** What a look has made of the branches so far: sorted, the green ones justified, the rest asked about. */
    ghost predicate LookedSoFar(look: Look, seen: seq<Item>, from: nat)
      reads this`answers, this`outcomes
    {
      && Sorts(look, seen) && Noted(outcomes, from, look.gone)
      && AllJustified(cfg, signatures, Heard(), look.ready) && AllGreen(look.ready)
      && AllRunning(Heard(), look.still)
    }

    /** One look at every waiting branch: gone green, still building, red in the end, or given up on. */
    method LookAtAll(pending: seq<Item>) returns (look: Look, ghost states: seq<CiState>)
      requires (forall it | it in pending :: Untried(it.src)) && Distinct(ItemNames(pending))
      modifies this`answers, this`outcomes
      ensures Later(old(Heard()), Heard(), NameSet(pending)) && old(outcomes) <= outcomes
      ensures LookedSoFar(look, pending, |old(outcomes)|)
      ensures |states| == |pending| &&
        LookedAtAll(cfg, refs, signatures, pending, states) == (look, outcomes[|old(outcomes)|..])
    {
      hide LookedSoFar, LookedAt, LookedAtAll, Untried, Later, NameSet;
      look, states := Look([], [], [], []), [];
      NothingLookedAt(pending);
      assert outcomes[|old(outcomes)|..] == [];
      for i := 0 to |pending|
        invariant old(outcomes) <= outcomes && Later(old(Heard()), Heard(), NameSet(pending))
        invariant LookedSoFar(look, pending[..i], |old(outcomes)|)
        invariant |states| == i &&
          LookedAtAll(cfg, refs, signatures, pending[..i], states) == (look, outcomes[|old(outcomes)|..])
      {
        ghost var state, seen, before := Passing, outcomes, Heard();
        NewName(pending, i);
        look, state := LookAtOne(look, pending, i, |old(outcomes)|);
        LookedAtOneMore(cfg, refs, signatures, pending, states, i, state);
        NameIsAsked(pending, i, before, Heard());
        LaterTwice(old(Heard()), before, Heard(), NameSet(pending));
        assert outcomes[|old(outcomes)|..] == seen[|old(outcomes)|..] + outcomes[|seen|..];
        states := states + [state];
      }
      assert pending[..|pending|] == pending;
    }

    lemma NameIsAsked(pending: seq<Item>, i: nat, before: Evidence, after: Evidence)
      requires i < |pending| && Later(before, after, {pending[i].src.name})
      ensures Later(before, after, NameSet(pending))
    {
      assert pending[i] in pending;
    }

    lemma NewName(pending: seq<Item>, i: nat)
      requires i < |pending| && Distinct(ItemNames(pending))
      ensures pending[i].src.name !in ItemNames(pending[..i])
    {
      assert ItemNames(pending[..i]) == ItemNames(pending)[..i];
    }

    lemma NothingLookedAt(pending: seq<Item>)
      ensures LookedSoFar(Look([], [], [], []), pending[..0], |outcomes|)
      ensures LookedAtAll(cfg, refs, signatures, pending[..0], []) == (Look([], [], [], []), [])
      ensures Later(Heard(), Heard(), NameSet(pending))
    {
      assert ItemNames([]) == [];
    }

    method LookAtOne(look: Look, pending: seq<Item>, i: nat, ghost from: nat)
      returns (after: Look, ghost answer: CiState)
      requires i < |pending| && Untried(pending[i].src) && from <= |outcomes|
      requires LookedSoFar(look, pending[..i], from) && pending[i].src.name !in ItemNames(pending[..i])
      modifies this`answers, this`outcomes
      ensures Later(old(Heard()), Heard(), {pending[i].src.name})
      ensures LookedSoFar(after, pending[..i + 1], from)
      ensures LookedAt(cfg, refs, signatures, look, pending[i], answer) == (after, outcomes[|old(outcomes)|..])
    {
      hide Sorts, Noted, ResolveOnFork, AllJustified, AllRunning, AllGreen;
      var it := pending[i];
      ghost var before := Heard();
      var now, state, why := LookAgain(it);
      answer := if state.Some? then state.value else NoRuns;
      match state {
        case None =>
          var gone := NoteGivenUp(look.gone, it.src.name, why, from);
          after := look.(gone := gone);
        case Some(ci) =>
          if ci == Passing {
            after := look.(ready := look.ready + [now]);
          } else if StillRunning(ci) {
            after := look.(still := look.still + [it]);
          } else if ci == Failing {
            after := look.(late := look.late + [it]);
          } else {
            var gone := NoteGivenUp(look.gone, it.src.name, if ci == CiError then CiUnreadable else NoCi, from);
            after := look.(gone := gone);
          }
      }
      assert outcomes[|old(outcomes)|..] == if after.gone == look.gone then [] else [outcomes[|outcomes| - 1]];
      SortsOneMore(look, pending[..i], it, now, after);
      assert pending[..i + 1] == pending[..i] + [it];
      PilesStand(cfg, signatures, before, Heard(), look, pending[..i], it);
      NewInPile(it, now, answer, look, after);
    }

    /** What the branch just asked about adds to its pile. */
    lemma NewInPile(it: Item, now: Item, ci: CiState, look: Look, after: Look)
      requires AllJustified(cfg, signatures, Heard(), look.ready) && AllGreen(look.ready) &&
        AllRunning(Heard(), look.still)
      requires Untried(it.src)
      requires after.ready == look.ready || (
        && after.ready == look.ready + [now] && now.src == CheckCoverage(signatures, it.src.(ciGreen := true))
        && LastAnswerIs(Heard(), it.src, {Passing}))
      requires after.still == look.still ||
        (after.still == look.still + [it] && LastAnswerIs(Heard(), it.src, {Running, RunningWithFailures}))
      ensures AllJustified(cfg, signatures, Heard(), after.ready) && AllGreen(after.ready) &&
        AllRunning(Heard(), after.still)
    {
    }

    /** Record that a branch is not waited for any longer. */
    method NoteGivenUp(gone: seq<string>, name: string, why: Outcome, ghost from: nat) returns (more: seq<string>)
      requires GivenUp(why) && from <= |outcomes| && Noted(outcomes, from, gone)
      modifies this`outcomes
      ensures outcomes == old(outcomes) + [Event(name, "-", why)] && more == gone + [name]
      ensures Noted(outcomes, from, more)
    {
      Record(name, "-", why);
      StaysNoted(old(outcomes), outcomes, from, gone);
      assert outcomes[|old(outcomes)|] == Event(name, "-", why);
      more := gone + [name];
    }

    /** revisit()'s obligations for the branches it has dealt with so far. */
    ghost predicate Revisited(pending: seq<Item>, tally: Tally, before: State, from: nat, executedBefore: seq<Item>)
      reads this
    {
      && Valid() && Settles(tally, pending) && from <= |outcomes| && Noted(outcomes, from, tally.gone)
      && BatchStep(cfg, startRows, before, W(), tally.done) && executed == executedBefore + tally.done
      && AllJustified(cfg, signatures, Heard(), tally.done)
      && Queue(tally.left, merged) && AtMostOnce(NameBag(tally.left)) && AtMostOnce(NameBag(pending))
    }

    /** Fetch the fork, then look at every branch in the list. */
    method FetchAndLook(pending: seq<Item>) returns (look: Look, ghost states: seq<CiState>)
      requires Valid() && (forall it | it in pending :: Untried(it.src)) && Distinct(ItemNames(pending))
      modifies this`refs, this`answers, this`outcomes
      ensures Valid() && W() == old(W()).(refs := old(refs).(fork := refs.fork))
      ensures Later(old(Heard()), Heard(), NameSet(pending)) && old(outcomes) <= outcomes
      ensures LookedSoFar(look, pending, |old(outcomes)|)
      ensures |states| == |pending| &&
        LookedAtAll(cfg, refs, signatures, pending, states) == (look, outcomes[|old(outcomes)|..])
    {
      hide LookedSoFar, LookedAtAll, Later;
      FetchFork();
      look, states := LookAtAll(pending);
    }

    /** Merge what a look found ready. */
    method MergeReady(look: Look, ghost pending: seq<Item>)
      requires Valid() && Sorts(look, pending) && Queue(pending, merged) && AtMostOnce(NameBag(pending))
      modifies this`refs, this`remote, this`tips, this`head, this`published, this`trials, this`ledger, this`merged,
        this`trailers, this`outcomes, this`ready, this`backups, this`executed
      ensures Valid() && BatchStep(cfg, startRows, old(W()), W(), look.ready)
      ensures refs == old(refs).(upstream := refs.upstream) && old(outcomes) <= outcomes
      ensures executed == old(executed) + look.ready
      ensures Queue(look.still, merged) && AtMostOnce(NameBag(look.still))
      ensures Queue(look.late, merged) && AtMostOnce(NameBag(look.late))
    {
      ghost var tally := Tally(look.ready, look.late, look.gone, look.still);
      LookSettles(look, pending);
      SameWorkStillToMerge(look.ready, pending, merged);
      PartDistinct(ItemNames(look.ready), NameBag(pending));
      MergeAll(look.ready);
      StillQueue(cfg, startRows, old(W()), W(), tally, pending, look.still);
      StillQueue(cfg, startRows, old(W()), W(), tally, pending, look.late);
    }

    /** A look at the waiting branches, and the green ones merged; CI of the ones left is still running. */
    method MergeTheGreen(pending: seq<Item>) returns (tally: Tally)
      requires Valid() && Queue(pending, merged) && AtMostOnce(NameBag(pending))
      modifies this`refs, this`remote, this`tips, this`head, this`published, this`trials, this`ledger, this`merged,
        this`trailers, this`outcomes, this`ready, this`backups, this`executed, this`answers
      ensures Revisited(pending, tally, old(W()), |old(outcomes)|, old(executed))
      ensures Later(old(Heard()), Heard(), NameSet(pending)) && AllRunning(Heard(), tally.left) &&
        old(outcomes) <= outcomes
      ensures refs == old(refs).(upstream := refs.upstream, fork := refs.fork)
      ensures |tally.left| <= |pending| && (tally.done != [] ==> |tally.left| < |pending|)
    {
      hide LookedAtAll, Later, AllJustified, AllRunning, AllGreen, NameSet;
      DistinctBag(ItemNames(pending));
      var look, _ := FetchAndLook(pending);
      ghost var looked, seen, known := W(), outcomes, Heard();
      MergeReady(look, pending);
      tally := Tally(look.ready, look.late, look.gone, look.still);
      LookSettles(look, pending);
      StaysNoted(seen, outcomes, |old(outcomes)|, look.gone);
      FetchedBatch(cfg, startRows, old(W()), looked, W(), look.ready);
      OnlyRecorded(known, Heard());
      StaysJustified(cfg, signatures, known, Heard(), {}, look.ready);
      StaysRunning(known, Heard(), look.still);
      LaterWider(known, Heard(), {}, NameSet(pending));
      LaterTwice(old(Heard()), known, Heard(), NameSet(pending));
    }

    /** Work that asks nobody anything. */
    lemma OnlyRecorded(before: Evidence, after: Evidence)
      requires before.answers == after.answers && before.events <= after.events
      ensures Later(before, after, {})
    {
    }

    lemma StaysRunning(before: Evidence, after: Evidence, items: seq<Item>)
      requires before.answers == after.answers && AllRunning(before, items)
      ensures AllRunning(after, items)
    {
    }

    /**
     build_instead_of_waiting(): execute the branch at the head of the queue on the strength of a
     local build; nothing without the stand-in and a build to lean on.
     */
    method BuildInsteadOfWaiting(pending: seq<Item>) returns (nudged: Option<string>)
      requires Valid() && Queue(pending, merged) && AtMostOnce(NameBag(pending)) && AllRunning(Heard(), pending)
      modifies this`refs, this`remote, this`tips, this`head, this`published, this`trials, this`ledger, this`merged,
        this`trailers, this`outcomes, this`ready, this`backups, this`executed
      ensures nudged.Some? <==> cfg.localStandIn && cfg.doCompile && pending != []
      ensures nudged == None ==> unchanged(this)
      ensures nudged.Some? ==> nudged == Some(pending[0].src.name)
      ensures nudged.Some? ==>
        Revisited(pending, Tally([pending[0]], [], [], pending[1..]), old(W()), |old(outcomes)|, old(executed))
      ensures old(outcomes) <= outcomes && refs == old(refs).(upstream := refs.upstream)
    {
      hide AllJustified, Settles, Noted, BatchStep, Sound;
      if !(cfg.localStandIn && cfg.doCompile && pending != []) {
        return None;
      }
      var it := pending[0];
      Record(it.src.name, "-", BuiltHere);
      ghost var noted, known := |outcomes| - 1, Heard();
      assert it in pending && it in [it];
      assert outcomes[noted] == Event(it.src.name, "-", BuiltHere);
      var _ := Execute(it);
      assert outcomes[noted] == Event(it.src.name, "-", BuiltHere);
      StandsIn(it);
      HeadSettles(pending);
      NothingNoted(|old(outcomes)|);
      StillQueue(cfg, startRows, old(W()), W(), Tally([it], [], [], pending[1..]), pending, pending[1..]);
      return Some(it.src.name);
    }

    lemma StandsIn(it: Item)
      requires Untried(it.src) && StoodIn(cfg, Heard(), it.src)
      ensures AllJustified(cfg, signatures, Heard(), [it])
    {
    }

    lemma NothingNoted(from: nat)
      ensures Noted(outcomes, from, [])
    {
    }

    /** Everything on the list is recorded and left to the next run. */
    method GiveUpOn(pending: seq<Item>, why: Outcome) returns (gone: seq<string>)
      requires GivenUp(why)
      modifies this`outcomes
      ensures gone == ItemNames(pending) && old(outcomes) <= outcomes
      ensures Noted(outcomes, |old(outcomes)|, gone)
    {
      gone := [];
      for i := 0 to |pending|
        invariant gone == ItemNames(pending)[..i] && old(outcomes) <= outcomes
        invariant Noted(outcomes, |old(outcomes)|, gone)
      {
        gone := NoteGivenUp(gone, pending[i].src.name, why, |old(outcomes)|);
      }
    }

    /** What happens to the branches still building after a look: given up, built here, or left to wait. */
    method AfterTheLook(pending: seq<Item>, someGreen: bool) returns (tally: Tally)
      requires Valid() && Queue(pending, merged) && AtMostOnce(NameBag(pending)) && AllRunning(Heard(), pending)
      modifies this`refs, this`remote, this`tips, this`head, this`published, this`trials, this`ledger, this`merged,
        this`trailers, this`outcomes, this`ready, this`backups, this`executed
      ensures Revisited(pending, tally, old(W()), |old(outcomes)|, old(executed))
      ensures old(outcomes) <= outcomes && refs == old(refs).(upstream := refs.upstream)
      ensures |tally.left| <= |pending|
      ensures !someGreen && cfg.localStandIn && cfg.doCompile && pending != [] ==> |tally.left| < |pending|
    {
      hide AllRunning, Sound, BatchStep, Settles, Noted, Queue, AllJustified, Later, NameSet;
      NothingDoneYet(pending);
      tally := Tally([], [], [], pending);
      if pending == [] {
        return;
      }
      var timeIsUp: bool := *;
      if timeIsUp {
        ghost var before, known := W(), Heard();
        var gone := GiveUpOn(pending, StillBuilding);
        AllGiven(pending, gone, before, known);
        return Tally([], [], gone, []);
      }
      if !someGreen {
        DistinctBag(ItemNames(pending));
        WithoutHead(pending);
        var nudged := BuildInsteadOfWaiting(pending);
        if nudged.Some? {
          tally := Tally([pending[0]], [], [], WithoutName(pending, nudged.value));
        }
      }
    }

    /** One round of waiting. */
    method RevisitRound(pending: seq<Item>) returns (tally: Tally)
      requires Valid() && Queue(pending, merged) && AtMostOnce(NameBag(pending)) && pending != []
      modifies this`refs, this`remote, this`tips, this`head, this`published, this`trials, this`ledger, this`merged,
        this`trailers, this`outcomes, this`ready, this`backups, this`executed, this`answers
      ensures Revisited(pending, tally, old(W()), |old(outcomes)|, old(executed))
      ensures Later(old(Heard()), Heard(), NameSet(pending)) && old(outcomes) <= outcomes
      ensures refs == old(refs).(upstream := refs.upstream, fork := refs.fork)
      ensures |tally.left| <= |pending|
      ensures cfg.localStandIn && cfg.doCompile ==> |tally.left| < |pending|
    {
      hide Revisited, Later, NameSet, AllRunning;
      var first := MergeTheGreen(pending);
      ghost var known := Heard();
      tally := GoOn(pending, first, first.done != [], old(W()), |old(outcomes)|, old(executed));
      OnlyRecorded(known, Heard());
      LaterWider(known, Heard(), {}, NameSet(pending));
      LaterTwice(old(Heard()), known, Heard(), NameSet(pending));
    }

    method GoOn(pending: seq<Item>, first: Tally, someGreen: bool, ghost before: State, ghost from: nat,
        ghost executedBefore: seq<Item>)
      returns (tally: Tally)
      requires Revisited(pending, first, before, from, executedBefore) && AllRunning(Heard(), first.left)
      modifies this`refs, this`remote, this`tips, this`head, this`published, this`trials, this`ledger, this`merged,
        this`trailers, this`outcomes, this`ready, this`backups, this`executed
      ensures Revisited(pending, tally, before, from, executedBefore)
      ensures old(outcomes) <= outcomes && refs == old(refs).(upstream := refs.upstream)
      ensures |tally.left| <= |first.left|
      ensures !someGreen && cfg.localStandIn && cfg.doCompile && first.left != [] ==> |tally.left| < |first.left|
    {
      hide Sound, Steady, BatchStep, Settles, Noted, Queue, NameBag, AllJustified, AllRunning, AtMostOnce, NameSet,
        Later;
      ghost var between, seen, known := W(), outcomes, Heard();
      var second := AfterTheLook(first.left, someGreen);
      tally := Join(first, second);
      OnlyRecorded(known, Heard());
      LaterWider(known, Heard(), {}, NameSet(first.left));
      TalliesJoin(cfg, startRows, signatures, before, between, W(), pending, first, second, seen, outcomes, from,
        known, Heard());
    }

    /**
     revisit(): come back to the branches that were still building. Every one of them ends up
     executed, returned as red in the end, recorded as given up, or -- only when watched for
     fewer rounds than it needs -- still waiting. Executed are those heard green, and those a
     local build stood in for while GitHub's last answer was "running". With the local stand-in
     and a build to lean on, as many rounds as there are branches are enough, whatever CI answers.
     */
    method Revisit(waiting: seq<Item>, rounds: nat) returns (tally: Tally)
      requires Valid() && Queue(waiting, merged) && AtMostOnce(NameBag(waiting))
      modifies this`refs, this`remote, this`tips, this`head, this`published, this`trials, this`ledger, this`merged,
        this`trailers, this`outcomes, this`ready, this`backups, this`executed, this`answers
      ensures Revisited(waiting, tally, old(W()), |old(outcomes)|, old(executed))
      ensures Later(old(Heard()), Heard(), NameSet(waiting)) && old(outcomes) <= outcomes
      ensures refs == old(refs).(upstream := refs.upstream, fork := refs.fork)
      ensures cfg.localStandIn && cfg.doCompile && |waiting| <= rounds ==> tally.left == []
    {
      hide Sound, Steady, BatchStep, Settles, Noted, Queue, NameBag, AllJustified, AtMostOnce, NameSet, Later;
      NothingAsked(waiting);
      if cfg.dryRun {
        var gone := GiveUpOn(waiting, WouldWait);
        AllGiven(waiting, gone, old(W()), old(Heard()));
        return Tally([], [], gone, []);
      }
      NothingDoneYet(waiting);
      tally := Tally([], [], [], waiting);
      var round := 0;
      while tally.left != [] && round < rounds
        decreases rounds - round
        invariant round <= rounds
        invariant Revisited(waiting, tally, old(W()), |old(outcomes)|, old(executed))
        invariant Later(old(Heard()), Heard(), NameSet(waiting)) && old(outcomes) <= outcomes
        invariant refs == old(refs).(upstream := refs.upstream, fork := refs.fork)
        invariant cfg.localStandIn && cfg.doCompile ==> |tally.left| + round <= |waiting|
      {
        ghost var known := Heard();
        NamesLeft(waiting, tally);
        tally := RevisitOnce(waiting, tally, old(W()), |old(outcomes)|, old(executed));
        LaterTwice(old(Heard()), known, Heard(), NameSet(waiting));
        round := round + 1;
      }
    }

    lemma NothingAsked(waiting: seq<Item>)
      ensures Later(Heard(), Heard(), NameSet(waiting))
    {
    }

    lemma NamesLeft(waiting: seq<Item>, tally: Tally)
      requires Settles(tally, waiting)
      ensures NameSet(tally.left) <= NameSet(waiting)
      ensures forall a: Evidence, b: Evidence | Later(a, b, NameSet(tally.left)) :: Later(a, b, NameSet(waiting))
    {
    }

    lemma NothingDoneYet(waiting: seq<Item>)
      requires Valid() && Queue(waiting, merged) && AtMostOnce(NameBag(waiting))
      ensures Revisited(waiting, Tally([], [], [], waiting), W(), |outcomes|, executed)
    {
      hide Sound, BatchStep, Queue;
      NothingSettledYet(waiting);
      EmptyBatch(cfg, startRows, W(), W());
    }

    lemma AllGiven(waiting: seq<Item>, gone: seq<string>, before: State, known: Evidence)
      requires Valid() && before == W() && AtMostOnce(NameBag(waiting)) && gone == ItemNames(waiting)
      requires known.answers == answers && known.events <= outcomes && Noted(outcomes, |known.events|, gone)
      ensures Revisited(waiting, Tally([], [], gone, []), before, |known.events|, executed)
      ensures Later(known, Heard(), NameSet(waiting))
    {
      hide Sound, BatchStep;
      AllGoneSettles(waiting);
      EmptyBatch(cfg, startRows, W(), W());
      assert ItemNames([]) == [];
    }

    method RevisitOnce(waiting: seq<Item>, tally: Tally, ghost before: State, ghost from: nat,
        ghost executedBefore: seq<Item>)
      returns (after: Tally)
      requires Revisited(waiting, tally, before, from, executedBefore) && tally.left != []
      modifies this`refs, this`remote, this`tips, this`head, this`published, this`trials, this`ledger, this`merged,
        this`trailers, this`outcomes, this`ready, this`backups, this`executed, this`answers
      ensures Revisited(waiting, after, before, from, executedBefore)
      ensures Later(old(Heard()), Heard(), NameSet(tally.left)) && old(outcomes) <= outcomes
      ensures refs == old(refs).(upstream := refs.upstream, fork := refs.fork)
      ensures cfg.localStandIn && cfg.doCompile ==> |after.left| < |tally.left|
    {
      hide Sound, Steady, BatchStep, Settles, Noted, Queue, NameBag, AllJustified, AtMostOnce, NameSet;
      ghost var between, seen, known := W(), outcomes, Heard();
      var more := RevisitRound(tally.left);
      after := Join(tally, more);
      TalliesJoin(cfg, startRows, signatures, before, between, W(), waiting, tally, more, seen, outcomes, from,
        known, Heard());
    }

    // ---------------------------------------------------------- planning and approval

    /** plan(): the targets left to merge to, none of them merged before. */
    method Plan(src: Source) returns (planned: Option<Item>)
      requires Distinct(validTargets)
      ensures planned.Some? ==> SameStanding(planned.value.src, src) && |planned.value.src.commits| == 1
      ensures planned.Some? ==> StillToMerge([planned.value], merged)
      ensures IsPlanOf(src, planned)
    {
      var base := PickBase(cfg, refs, src);
      BaseUnique(cfg, refs, src, base, BaseFor(cfg, refs, src));
      PlanMeaning(cfg, refs, startRows, merged, listed, validTargets, src, base);
      match PlanFrom(cfg, refs, startRows, merged, listed, validTargets, src, base)
      case Nothing(_) => return None;
      case Send(targets) => return Some(Item(WithBase(src, base), targets));
    }

    ghost function Now(): Setting
      reads this`merged, this`listed, this`validTargets
    {
      Setting(startRows, merged, listed, validTargets)
    }

    /** What plan() decides on the refs and the ledger as they are. */
    ghost predicate IsPlanOf(src: Source, planned: Option<Item>)
      reads this
    {
      planned == PlanOf(cfg, refs, Now(), src)
    }

    predicate AlreadyApproved(src: Source) {
      || (src.name, src.head) in mergedHeads
      || (src.head in signatures && (src.name, signatures[src.head]) in approvals)
    }

    /** Anybody is asked about diffs at all. */
    predicate Asking() {
      cfg.operatorReview && !cfg.assumeYes && !cfg.dryRun
    }

    /** One question, for a whole family. */
    method AskOperator(stem: string) returns (yes: bool)
      modifies this`saidYes
      ensures saidYes == old(saidYes) + if yes then {stem} else {}
    {
      yes := *;
      saidYes := saidYes + if yes then {stem} else {};
    }

    /** operator_review(): one question for a family, if anybody is asked; a no is recorded for each cut. */
    method OperatorReview(members: seq<Item>, stem: string) returns (approved: bool)
      requires stem !in saidYes
      modifies this`saidYes, this`outcomes
      ensures saidYes == old(saidYes) + if Asking() && approved then {stem} else {}
      ensures !Asking() ==> approved
      ensures outcomes == old(outcomes) + if approved then [] else Rejections(members)
    {
      if !Asking() {
        return true;
      }
      approved := AskOperator(stem);
      if !approved {
        for i := 0 to |members|
          invariant outcomes == old(outcomes) + Rejections(members[..i])
          invariant saidYes == old(saidYes)
        {
          assert Rejections(members[..i + 1]) ==
            Rejections(members[..i]) + [Event(members[i].src.name, "-", NotApproved)];
          Record(members[i].src.name, "-", NotApproved);
        }
        assert members[..|members|] == members;
      }
    }

    /** A family passes when nobody is asked, every cut was approved before, or the operator says yes to it. */
    ghost predicate Passed(plans: seq<Item>, stem: string)
      reads this`saidYes
    {
      PassesGate(saidYes, plans, stem)
    }

    ghost predicate PassesGate(said: set<string>, plans: seq<Item>, stem: string) {
      !Asking() || stem in said || AllApproved(plans, stem)
    }

    ghost predicate AllApproved(plans: seq<Item>, stem: string) {
      forall it | it in plans && Stem(cfg, it) == stem :: AlreadyApproved(it.src)
    }

    /** The approval gate: each family passes whole or not at all, and every cut turned down is on record. */
    method Approve(plans: seq<Item>) returns (approved: seq<Item>)
      requires Distinct(ItemNames(plans)) && saidYes == {}
      modifies this`saidYes, this`outcomes
      ensures Distinct(ItemNames(approved))
      ensures forall it :: it in approved <==> it in plans && Passed(plans, Stem(cfg, it))
      ensures old(outcomes) <= outcomes
      ensures forall e :: e in outcomes[|old(outcomes)|..] <==>
        exists it | it in plans && !Passed(plans, Stem(cfg, it)) :: e == Event(it.src.name, "-", NotApproved)
    {
      hide AllApproved, Family, GateSoFar, LetThrough, Distinct, ItemNames, Passed, Stem, TurnedDown;
      approved := [];
      var asked: set<string> := {};
      ghost var passed: set<string> := {};
      NobodyAsked(plans);
      assert outcomes[|old(outcomes)|..] == [];
      for i := 0 to |plans|
        invariant GateSoFar(saidYes, plans, asked, passed) && LetThrough(plans, approved, passed)
        invariant old(outcomes) <= outcomes && TurnedDown(plans, outcomes[|old(outcomes)|..], asked - passed)
        invariant forall j | 0 <= j < i :: Stem(cfg, plans[j]) in asked
      {
        var stem := Stem(cfg, plans[i]);
        if stem !in asked {
          var members := Family(cfg, plans, stem);
          ghost var said, seen := saidYes, outcomes;
          SaidWasAsked(said, plans, asked, passed, stem);
          var pass := ApproveFamily(plans, members, stem);
          GateOneMore(said, saidYes, plans, asked, passed, stem, pass);
          TurnedDownOneMore(plans, seen[|old(outcomes)|..], asked - passed, stem);
          assert outcomes[|old(outcomes)|..] == seen[|old(outcomes)|..] + if pass then [] else Rejections(members);
          assert (asked + {stem}) - (passed + {stem}) == asked - passed;
          assert (asked + {stem}) - passed == asked - passed + {stem};
          assert seen[|old(outcomes)|..] + [] == seen[|old(outcomes)|..];
          asked := asked + {stem};
          if pass {
            LetThroughOneMore(plans, approved, passed, stem);
            approved := approved + members;
            passed := passed + {stem};
          }
        }
      }
      GateMeaning(plans, approved, asked, passed, outcomes[|old(outcomes)|..]);
    }

    /** The record holds exactly the cuts of these families. */
    ghost predicate TurnedDown(plans: seq<Item>, events: seq<Event>, stems: set<string>) {
      forall e :: e in events <==>
        exists it | it in plans && Stem(cfg, it) in stems :: e == Event(it.src.name, "-", NotApproved)
    }

    lemma TurnedDownOneMore(plans: seq<Item>, events: seq<Event>, stems: set<string>, stem: string)
      requires TurnedDown(plans, events, stems)
      ensures TurnedDown(plans, events + Rejections(Family(cfg, plans, stem)), stems + {stem})
    {
      hide Stem;
      var family := Family(cfg, plans, stem);
      forall e
        ensures e in events + Rejections(family) <==>
          exists it | it in plans && Stem(cfg, it) in stems + {stem} :: e == Event(it.src.name, "-", NotApproved)
      {
        RejectionsMeaning(family, e);
      }
    }

    /** Of the families asked so far, exactly those passed that the gate lets pass. */
    ghost predicate GateSoFar(said: set<string>, plans: seq<Item>, asked: set<string>, passed: set<string>) {
      said <= asked && passed <= asked && forall stem | stem in asked :: stem in passed <==>
        PassesGate(said, plans, stem)
    }

    ghost predicate LetThrough(plans: seq<Item>, approved: seq<Item>, passed: set<string>) {
      Distinct(ItemNames(approved)) && forall it :: it in approved <==> it in plans && Stem(cfg, it) in passed
    }

    lemma NobodyAsked(plans: seq<Item>)
      ensures GateSoFar({}, plans, {}, {}) && LetThrough(plans, [], {}) && TurnedDown(plans, [], {} - {})
    {
    }

    lemma SaidWasAsked(said: set<string>, plans: seq<Item>, asked: set<string>, passed: set<string>, stem: string)
      requires GateSoFar(said, plans, asked, passed) && stem !in asked
      ensures stem !in said && stem !in passed
    {
    }

    lemma GateOneMore(said: set<string>, now: set<string>, plans: seq<Item>, asked: set<string>, passed: set<string>,
        stem: string, pass: bool)
      requires GateSoFar(said, plans, asked, passed) && stem !in asked
      requires said <= now <= said + {stem} && (pass <==> PassesGate(now, plans, stem))
      ensures GateSoFar(now, plans, asked + {stem}, if pass then passed + {stem} else passed)
    {
      hide AllApproved;
    }

    lemma LetThroughOneMore(plans: seq<Item>, approved: seq<Item>, passed: set<string>, stem: string)
      requires LetThrough(plans, approved, passed) && stem !in passed && Distinct(ItemNames(plans))
      ensures LetThrough(plans, approved + Family(cfg, plans, stem), passed + {stem})
    {
      FamilyDistinct(cfg, plans, stem);
      FamiliesApart(cfg, approved, Family(cfg, plans, stem), stem);
    }

    lemma GateMeaning(plans: seq<Item>, approved: seq<Item>, asked: set<string>, passed: set<string>,
        events: seq<Event>)
      requires GateSoFar(saidYes, plans, asked, passed) && LetThrough(plans, approved, passed)
      requires TurnedDown(plans, events, asked - passed)
      requires forall j | 0 <= j < |plans| :: Stem(cfg, plans[j]) in asked
      ensures Distinct(ItemNames(approved))
      ensures forall it :: it in approved <==> it in plans && Passed(plans, Stem(cfg, it))
      ensures forall e :: e in events <==>
        exists it | it in plans && !Passed(plans, Stem(cfg, it)) :: e == Event(it.src.name, "-", NotApproved)
    {
      hide AllApproved, Stem;
    }

    method ApproveFamily(ghost plans: seq<Item>, members: seq<Item>, stem: string) returns (pass: bool)
      requires members == Family(cfg, plans, stem) && stem !in saidYes
      modifies this`saidYes, this`outcomes
      ensures old(saidYes) <= saidYes <= old(saidYes) + {stem} && (pass <==> PassesGate(saidYes, plans, stem))
      ensures outcomes == old(outcomes) + if pass then [] else Rejections(members)
    {
      pass := forall it | it in members :: AlreadyApproved(it.src);
      if !pass {
        pass := OperatorReview(members, stem);
      }
    }

    // ---------------------------------------------------------- the last look at the red ones

    /**
     refresh_rewrites(): cut the local rewrites again and plan the ones that moved. The helpers
     may fail, cut nothing, or leave any head under any name.
     */
    method RefreshRewrites(work: seq<Item>)
      returns (again: seq<Item>, ghost dropped: seq<string>, ghost helpers: Helpers, ghost output: Option<seq<string>>)
      requires Valid() && Queue(work, merged) && Distinct(validTargets)
      modifies this`refs
      ensures helpers.made ==
        match output case None => None case Some(lines) => Some(SquashOutput(Names(Listed(lines)), cfg.strip))
      ensures Valid() && W() == old(W()).(refs := old(refs).(local := refs.local))
      ensures (again, dropped) == Refreshed(cfg, old(refs), Now(), work, helpers)
      ensures Recut(again, dropped, work, merged)
    {
      hide Queue;
      again, dropped, helpers, output := work, [], Helpers(map[], None), None;
      NothingRecut(work);
      if work == [] || LeavesRewrites(cfg) {
        return;
      }
      var local: map<string, History>, cut: Option<seq<string>> := *, *;
      output := cut;
      RefsMoved(cfg, detached, W(), refs.fork, local);
      refs := refs.(local := local);
      match cut {
        case None => helpers := Helpers(local, None);
        case Some(lines) =>
          var entries := ParseBranchFile(lines);
          var made := SquashOutput(Names(entries), cfg.strip);
          helpers := Helpers(local, Some(made));
          again, dropped := RecutAll(work, made);
      }
    }

    lemma NothingRecut(work: seq<Item>)
      requires Queue(work, merged)
      ensures Recut(work, [], work, merged)
    {
    }

    method RecutAll(work: seq<Item>, made: map<string, string>) returns (again: seq<Item>, ghost dropped: seq<string>)
      requires Queue(work, merged) && Distinct(validTargets)
      ensures (again, dropped) == RecutAllOf(cfg, refs, Now(), made, work)
      ensures Recut(again, dropped, work, merged)
    {
      hide RecutOf, RecutAllOf, Queue, Recut, Distinct, Now;
      again, dropped := [], [];
      EmptyRecut(made);
      assert work[..0] == [];
      for i := 0 to |work|
        invariant (again, dropped) == RecutAllOf(cfg, refs, Now(), made, work[..i])
        invariant Recut(again, dropped, work[..i], merged)
      {
        var it := work[i];
        assert work[..i + 1] == work[..i] + [it];
        RecutAllOneMore(cfg, refs, Now(), made, work, i);
        OneOfQueue(work, i);
        var now := RecutOne(it, made);
        RecutOneMore(again, dropped, work[..i], merged, it, now);
        match now {
          case Some(n) => again := again + [n];
          case None => dropped := dropped + [it.src.name];
        }
      }
      assert work[..|work|] == work;
    }

    lemma EmptyRecut(made: map<string, string>)
      ensures Recut([], [], [], merged) && RecutAllOf(cfg, refs, Now(), made, []) == ([], [])
    {
      assert ItemNames([]) == [];
    }

    lemma OneOfQueue(work: seq<Item>, i: nat)
      requires i < |work| && Queue(work, merged)
      ensures Queue([work[i]], merged)
    {
      assert work[i] in work;
      assert forall it | it in [work[i]] :: it == work[i];
    }

    /** One branch: kept as it is, or picked from a new head and planned again. */
    method RecutOne(it: Item, made: map<string, string>) returns (now: Option<Item>)
      requires Queue([it], merged) && Distinct(validTargets)
      ensures now == RecutOf(cfg, refs, Now(), made, it)
      ensures now.Some? ==> now.value.src.name == it.src.name && Queue([now.value], merged)
    {
      assert it in [it];
      var name := Logical(it.src.name, cfg.strip);
      if name !in made || made[name] !in refs.local {
        return Some(it);
      }
      var rewrite := made[name];
      if (rewrite, refs.local[rewrite]) == (it.src.pickName, it.src.head) {
        return Some(it);
      }
      now := Plan(it.src.(pickName := rewrite, head := refs.local[rewrite]));
      assert now.Some? ==> forall n | n in [now.value] :: n == now.value;
    }

    /** The second and last look: what is not green now is recorded and left to the next run. */
    method LastLook(work: seq<Item>) returns (look: Look)
      requires Valid() && (forall it | it in work :: Untried(it.src)) && Distinct(ItemNames(work))
      modifies this`refs, this`answers, this`outcomes
      ensures Valid() && W() == old(W()).(refs := old(refs).(fork := refs.fork))
      ensures Later(old(Heard()), Heard(), NameSet(work)) && old(outcomes) <= outcomes
      ensures Sorts(look, work) && AllJustified(cfg, signatures, Heard(), look.ready) && AllGreen(look.ready)
      ensures look.still == [] && look.late == [] && Noted(outcomes, |old(outcomes)|, look.gone)
    {
      hide LookedAtAll, AllJustified, Later, Noted, NameSet, Sorts, AllGreen, AllRunning, Sound, Untried, Distinct;
      var first, _ := FetchAndLook(work);
      ghost var seen, known := outcomes, Heard();
      var late := GiveUpOn(first.late, StillFailing);
      ghost var more := outcomes;
      var still := GiveUpOn(first.still, NoCi);
      GivenUpTogether(seen, more, |old(outcomes)|, first.gone, late, still);
      OnlyRecorded(known, Heard());
      StaysJustified(cfg, signatures, known, Heard(), {}, first.ready);
      LaterWider(known, Heard(), {}, NameSet(work));
      LaterTwice(old(Heard()), known, Heard(), NameSet(work));
      look := Look(first.ready, [], [], first.gone + late + still);
      NoneWaits(first, work);
    }

    lemma GivenUpTogether(seen: seq<Event>, more: seq<Event>, from: nat, a: seq<string>, b: seq<string>, c: seq<string>)
      requires from <= |seen| && seen <= more <= outcomes
      requires Noted(seen, from, a) && Noted(more, |seen|, b) && Noted(outcomes, |more|, c)
      ensures Noted(outcomes, from, a + b + c)
    {
      hide Noted;
      StaysNoted(seen, more, from, a);
      NotedTogether(more, from, |seen|, a, b);
      StaysNoted(more, outcomes, from, a + b);
      NotedTogether(outcomes, from, |more|, a + b, c);
    }

    /**
     retry_failed(): one more look at what CI called red. Each branch is executed, and then GitHub's
     last answer was green; or recorded as given up; or dropped, with nothing left to merge once
     its rewrite was cut again.
     */
    method RetryFailed(work: seq<Item>) returns (done: seq<Item>, ghost gone: seq<string>, ghost dropped: seq<string>)
      requires Valid() && Queue(work, merged) && AtMostOnce(NameBag(work)) && Distinct(validTargets)
      modifies this`refs, this`remote, this`tips, this`head, this`published, this`trials, this`ledger, this`merged,
        this`trailers, this`outcomes, this`ready, this`backups, this`executed, this`answers
      ensures Valid() && BatchStep(cfg, startRows, old(W()), W(), done) && executed == old(executed) + done
      ensures Later(old(Heard()), Heard(), NameSet(work)) && old(outcomes) <= outcomes
      ensures NameBag(work) == NameBag(done) + multiset(gone) + multiset(dropped) &&
        Noted(outcomes, |old(outcomes)|, gone)
      ensures AllJustified(cfg, signatures, Heard(), done) && AllGreen(done)
      ensures LeavesRewrites(cfg) ==> SameWork(done, work)
    {
      hide Sound, BatchStep, Queue, Later, NameSet, NameBag, AtMostOnce, AllJustified, Noted, AllGreen, SameWork,
        Refreshed;
      NothingAsked(work);
      NothingRetried();
      done, gone, dropped := [], [], [];
      EmptyBatch(cfg, startRows, W(), W());
      if work == [] {
        return;
      }
      var again, notPlanned, helpers, _ := RefreshRewrites(work);
      dropped := notPlanned;
      NoneMoved(cfg, old(refs), Now(), work, again, dropped, helpers);
      EmptyBatch(cfg, startRows, old(W()), W());
      RecutParts(again, dropped, work);
      if again == [] {
        return;
      }
      ghost var recut := W();
      done, gone := LookAtRecut(again);
      BatchTwice(cfg, startRows, old(W()), recut, W(), [], done);
      assert [] + done == done;
      RetryCounted(again, work, done, gone, dropped);
      LaterWider(old(Heard()), Heard(), NameSet(again), NameSet(work));
    }

    lemma RecutParts(again: seq<Item>, dropped: seq<string>, work: seq<Item>)
      requires Recut(again, dropped, work, merged) && AtMostOnce(NameBag(work))
      ensures AtMostOnce(NameBag(again)) && NameSet(again) <= NameSet(work)
      ensures NameBag(work) == NameBag(again) + multiset(dropped) && Queue(again, merged)
    {
      hide Queue, NameBag;
      assert NameBag(again) <= NameBag(work);
      assert forall n :: NameBag(again)[n] <= NameBag(work)[n];
      NamesRecut(again, work);
    }

    lemma RetryCounted(again: seq<Item>, work: seq<Item>, done: seq<Item>, gone: seq<string>, dropped: seq<string>)
      requires NameBag(work) == NameBag(again) + multiset(dropped) && NameBag(again) == NameBag(done) + multiset(gone)
      ensures NameBag(work) == NameBag(done) + multiset(gone) + multiset(dropped)
    {
    }

    /** The list as the re-cut left it: looked at, or with --dry-run only recorded. */
    method LookAtRecut(again: seq<Item>) returns (done: seq<Item>, ghost gone: seq<string>)
      requires Valid() && Queue(again, merged) && AtMostOnce(NameBag(again))
      modifies this`refs, this`remote, this`tips, this`head, this`published, this`trials, this`ledger, this`merged,
        this`trailers, this`outcomes, this`ready, this`backups, this`executed, this`answers
      ensures Valid() && BatchStep(cfg, startRows, old(W()), W(), done) && executed == old(executed) + done
      ensures Later(old(Heard()), Heard(), NameSet(again)) && old(outcomes) <= outcomes
      ensures NameBag(again) == NameBag(done) + multiset(gone) && Noted(outcomes, |old(outcomes)|, gone)
      ensures AllJustified(cfg, signatures, Heard(), done) && AllGreen(done) && SameWork(done, again)
    {
      hide Sound, BatchStep, Queue, Later, NameSet, AtMostOnce, AllJustified, Noted, AllGreen, SameWork;
      if cfg.dryRun {
        gone := GiveUpOn(again, WouldRecheck);
        done := [];
        OnlyRecorded(old(Heard()), Heard());
        LaterWider(old(Heard()), Heard(), {}, NameSet(again));
        EmptyBatch(cfg, startRows, W(), W());
        NothingRetried();
      } else {
        done, gone := MergeLast(again);
      }
    }

    lemma NothingRetried()
      ensures ItemNames([]) == [] && NameBag([]) == multiset{} && AllJustified(cfg, signatures, Heard(), []) &&
        AllGreen([])
      ensures Noted(outcomes, |outcomes|, []) && forall work: seq<Item> :: SameWork([], work)
    {
    }

    lemma NamesRecut(again: seq<Item>, work: seq<Item>)
      requires NameBag(again) <= NameBag(work)
      ensures NameSet(again) <= NameSet(work)
    {
      forall n | n in NameSet(again) ensures n in NameSet(work) {
        var it :| it in again && it.src.name == n;
        var w := NameFrom(again, work, it);
      }
    }

    method MergeLast(work: seq<Item>) returns (done: seq<Item>, ghost gone: seq<string>)
      requires Valid() && Queue(work, merged) && AtMostOnce(NameBag(work))
      modifies this`refs, this`remote, this`tips, this`head, this`published, this`trials, this`ledger, this`merged,
        this`trailers, this`outcomes, this`ready, this`backups, this`executed, this`answers
      ensures Valid() && BatchStep(cfg, startRows, old(W()), W(), done) && executed == old(executed) + done
      ensures Later(old(Heard()), Heard(), NameSet(work)) && old(outcomes) <= outcomes
      ensures NameBag(work) == NameBag(done) + multiset(gone) && Noted(outcomes, |old(outcomes)|, gone)
      ensures AllJustified(cfg, signatures, Heard(), done) && AllGreen(done) && SameWork(done, work)
    {
      hide AllJustified, Later, NameSet, Noted, BatchStep, Sound;
      DistinctBag(ItemNames(work));
      var look := LastLook(work);
      ghost var looked, seen, known := W(), outcomes, Heard();
      MergeReady(look, work);
      done, gone := look.ready, look.gone;
      assert ItemNames([]) == [];
      FetchedBatch(cfg, startRows, old(W()), looked, W(), look.ready);
      StaysNoted(seen, outcomes, |old(outcomes)|, gone);
      OnlyRecorded(known, Heard());
      StaysJustified(cfg, signatures, known, Heard(), {}, done);
      LaterWider(known, Heard(), {}, NameSet(work));
      LaterTwice(old(Heard()), known, Heard(), NameSet(work));
    }

    // ---------------------------------------------------------- run()

    /** Fetch both remotes; either may fail. */
    method FetchAll() returns (ok: bool)
      requires Valid() && ready == {}
      modifies this`refs
      ensures Valid() && W() == old(W()).(refs := refs) && refs.objects == old(refs.objects)
    {
      var fork: map<string, History>, seen: map<string, nat> := *, *;
      refs := refs.(fork := fork,
        upstream := map t | t in remote && t in seen ::
          remote[t][..if seen[t] <= |remote[t]| then seen[t] else |remote[t]|]);
      ok := *;
    }

    /** Where the branches listed stand before anything is planned: green, building, red, or left out. */
    ghost predicate Stands(look: Look)
      reads this`answers, this`outcomes
    {
      StandsOn(cfg, signatures, held, Heard(), look)
    }

    /** Look at one listed branch: held, not on the fork, or sorted by what CI says of its fork head. */
    method ClassifyOne(look: Look, entry: Entry) returns (after: Look, ghost answer: CiState)
      requires Stands(look) && LookBag(look)[entry.name] == 0
      modifies this`answers, this`outcomes
      ensures Stands(after) && Later(old(Heard()), Heard(), {entry.name})
      ensures LookBag(after) == LookBag(look) + multiset{entry.name}
      ensures Classified(cfg, refs, signatures, held, look, entry, answer) == (after, outcomes[|old(outcomes)|..])
    {
      hide LookBag, Resolved, StandsOn;
      answer := NoRuns;
      ResolvedIsFresh(entry);
      var found := Resolved(cfg, refs, FreshSource(entry));
      if entry.name !in held && found.Some? {
        after, answer := ClassifyFound(look, found.value);
      } else {
        Record(entry.name, "-", if entry.name in held then HeldBack else NotOnFork);
        after := look.(gone := look.gone + [entry.name]);
        LookBagOneMore(look, Item(FreshSource(entry), []), after);
        StillStands(cfg, signatures, held, old(Heard()), Heard(), look, entry.name);
        RestStands(cfg, signatures, held, Heard(), look, Item(FreshSource(entry), []), after);
      }
    }

    lemma ResolvedIsFresh(entry: Entry)
      ensures var found := Resolved(cfg, refs, FreshSource(entry)); found.Some? ==>
        found.value.name == entry.name && Untried(found.value)
    {
    }

    method ClassifyFound(look: Look, src: Source) returns (after: Look, ghost answer: CiState)
      requires Stands(look) && src.name !in held && Untried(src) && LookBag(look)[src.name] == 0
      modifies this`answers, this`outcomes
      ensures Stands(after) && Later(old(Heard()), Heard(), {src.name})
      ensures LookBag(after) == LookBag(look) + multiset{src.name}
      ensures (after, outcomes[|old(outcomes)|..]) ==
        if cfg.skipCi then (look.(ready := look.ready + [Item(CheckCoverage(signatures, src), [])]), [])
        else SortedByCi(look, Item(src, []), GreenNow(signatures, Item(src, [])), answer)
    {
      hide LookBag, CheckCoverage, StandsOn;
      var it := Item(src, []);
      answer := NoRuns;
      assert outcomes[|old(outcomes)|..] == [];
      if cfg.skipCi {
        after := AddGreen(look, it);
        return;
      }
      var state := AskCi(src.name, src.forkHead);
      answer := state;
      StillStands(cfg, signatures, held, old(Heard()), Heard(), look, src.name);
      if state == Passing {
        after := AddGreen(look, it.(src := src.(ciGreen := true)));
        return;
      }
      if StillRunning(state) {
        after := look.(still := look.still + [it]);
      } else if state == Failing {
        after := look.(late := look.late + [it]);
      } else {
        Record(src.name, "-", if state == CiError then CiUnreadable else NoCi);
        StillStands(cfg, signatures, held, old(Heard()), Heard(), look, src.name);
        after := look.(gone := look.gone + [src.name]);
      }
      LookBagOneMore(look, it, after);
      RestStands(cfg, signatures, held, Heard(), look, it, after);
    }

    method AddGreen(look: Look, it: Item) returns (after: Look)
      requires Stands(look) && it.src.name !in held && !it.src.ciCovers
      requires if it.src.ciGreen then LastAnswerIs(Heard(), it.src, {Passing}) else cfg.skipCi
      ensures Stands(after) && LookBag(after) == LookBag(look) + multiset{it.src.name}
      ensures after == look.(ready := look.ready + [it.(src := CheckCoverage(signatures, it.src))])
    {
      hide LookBag;
      var now := it.(src := CheckCoverage(signatures, it.src));
      after := look.(ready := look.ready + [now]);
      LookBagOneMore(look, now, after);
    }

    /** Every listed branch, sorted: each is on the pile its own answer puts it on. */
    method Classify(entries: seq<Entry>) returns (look: Look, ghost states: seq<CiState>)
      requires Distinct(Names(entries))
      modifies this`answers, this`outcomes
      ensures Stands(look) && old(outcomes) <= outcomes
      ensures LookBag(look) == multiset(Names(entries))
      ensures |states| == |entries|
      ensures ClassifiedAll(cfg, refs, signatures, held, entries, states) == (look, outcomes[|old(outcomes)|..])
    {
      hide Classified, ClassifiedAll, Stands, LookBag, Distinct, Names;
      look, states := Look([], [], [], []), [];
      NothingClassified(entries);
      assert outcomes[|old(outcomes)|..] == [];
      for i := 0 to |entries|
        invariant Stands(look) && old(outcomes) <= outcomes
        invariant LookBag(look) == multiset(Names(entries[..i]))
        invariant |states| == i
        invariant ClassifiedAll(cfg, refs, signatures, held, entries[..i], states) ==
          (look, outcomes[|old(outcomes)|..])
      {
        NamesFront(entries, i);
        ghost var state, seen := Passing, outcomes;
        look, state := ClassifyOne(look, entries[i]);
        ClassifiedOneMore(cfg, refs, signatures, held, entries, states, i, state);
        assert outcomes[|old(outcomes)|..] == seen[|old(outcomes)|..] + outcomes[|seen|..];
        states := states + [state];
      }
      assert entries[..|entries|] == entries;
    }

    lemma NamesFront(entries: seq<Entry>, i: nat)
      requires i < |entries| && Distinct(Names(entries))
      ensures multiset(Names(entries[..i + 1])) == multiset(Names(entries[..i])) + multiset{entries[i].name}
      ensures multiset(Names(entries[..i]))[entries[i].name] == 0
    {
      assert Names(entries[..i + 1]) == Names(entries[..i]) + [entries[i].name];
      assert forall j | 0 <= j < i :: Names(entries[..i])[j] == Names(entries)[j];
      assert entries[i].name !in Names(entries[..i]);
    }

    lemma NothingClassified(entries: seq<Entry>)
      ensures Stands(Look([], [], [], [])) && LookBag(Look([], [], [], [])) == multiset(Names(entries[..0]))
      ensures ClassifiedAll(cfg, refs, signatures, held, entries[..0], []) == (Look([], [], [], []), [])
    {
      assert ItemNames([]) == [] && Names(entries[..0]) == [];
    }

    /**
     The targets of this run: the configured ones that are upstream and that git can reset to the
     upstream tip, each once, in the order they are configured in.
     */
    method PrepareTargets() returns (ghost stuck: set<string>, ghost at: seq<nat>)
      requires Valid() && ready == {}
      modifies this`tips, this`head, this`ready, this`backups, this`validTargets
      ensures Valid() && Usable(cfg.targets, refs, stuck, validTargets, at) && (detached ==> stuck == {})
      ensures Distinct(validTargets)
      ensures W() == old(W()).(tips := tips, head := head, ready := ready)
      ensures forall t | t in validTargets :: t in cfg.targets && t in ready
    {
      hide Sound, Usable;
      NoTargets();
      validTargets, stuck, at := [], {}, [];
      for i := 0 to |cfg.targets|
        invariant Valid() && (detached ==> stuck == {})
        invariant W() == old(W()).(tips := tips, head := head, ready := ready)
        invariant forall t :: t in validTargets <==> t in ready
        invariant forall t | t in stuck :: t in cfg.targets[..i]
        invariant Usable(cfg.targets[..i], refs, stuck, validTargets, at)
      {
        var target := cfg.targets[i];
        if target !in cfg.targets[..i] {
          UsableAreTargets(cfg.targets[..i], refs, stuck, validTargets, at);
          var ok;
          ghost var refused;
          ok, refused := EnsureTarget(target);
          UsableOneMore(cfg.targets, i, refs, stuck, validTargets, at, refused, ok);
          stuck := if refused then stuck + {target} else stuck;
          if ok {
            validTargets, at := validTargets + [target], at + [i];
          }
        } else {
          UsableAgain(cfg.targets, i, refs, stuck, validTargets, at);
        }
      }
      assert cfg.targets[..|cfg.targets|] == cfg.targets;
      UsableAreTargets(cfg.targets, refs, stuck, validTargets, at);
    }

    lemma NoTargets()
      ensures Usable(cfg.targets[..0], refs, {}, [], [])
    {
    }

    lemma UsableAreTargets(targets: seq<string>, refs: Refs, stuck: set<string>, valid: seq<string>, at: seq<nat>)
      requires Usable(targets, refs, stuck, valid, at)
      ensures Distinct(valid) && forall t | t in valid :: t in targets
    {
    }

    /** plan() over the whole list. */
    method PlanAll(items: seq<Item>) returns (plans: seq<Item>)
      requires Distinct(validTargets)
      ensures PlansOf(items, plans)
    {
      hide PlansOf, IsPlanOf, SameStanding, StillToMerge;
      plans := [];
      NoPlans();
      for i := 0 to |items|
        invariant PlansOf(items[..i], plans)
      {
        var it := items[i];
        assert items[..i + 1] == items[..i] + [it];
        var planned := Plan(it.src);
        PlanOneMore(items[..i], plans, it, planned);
        if planned.Some? {
          plans := plans + [planned.value];
        }
      }
      assert items[..|items|] == items;
    }

    /** The plans are what plan() decides for each of the items, and nothing else. */
    ghost predicate PlansOf(items: seq<Item>, plans: seq<Item>)
      reads this
    {
      && NameBag(plans) <= NameBag(items) && StillToMerge(plans, merged)
      && (forall p | p in plans :: exists it | it in items :: SameStanding(p.src, it.src) && IsPlanOf(it.src, Some(p)))
      && forall it | it in items :: IsPlanOf(it.src, None) || exists p | p in plans :: IsPlanOf(it.src, Some(p))
    }

    lemma NoPlans()
      ensures PlansOf([], [])
    {
      assert ItemNames([]) == [];
    }

    lemma PlanOneMore(items: seq<Item>, plans: seq<Item>, it: Item, planned: Option<Item>)
      requires PlansOf(items, plans) && IsPlanOf(it.src, planned)
      requires planned.Some? ==> SameStanding(planned.value.src, it.src) && StillToMerge([planned.value], merged)
      ensures PlansOf(items + [it], match planned case Some(p) => plans + [p] case None => plans)
    {
      hide IsPlanOf, SameStanding, NameBag;
      var after := match planned case Some(p) => plans + [p] case None => plans;
      BagOneMore(items, plans, it, planned);
      if planned.Some? {
        assert planned.value in [planned.value];
      }
      forall p | p in plans ensures p in after {
      }
    }

    lemma BagOneMore(items: seq<Item>, plans: seq<Item>, it: Item, planned: Option<Item>)
      requires NameBag(plans) <= NameBag(items) && (planned.Some? ==> SameStanding(planned.value.src, it.src))
      ensures NameBag(match planned case Some(p) => plans + [p] case None => plans) <= NameBag(items + [it])
    {
      NameBagSum(items, [it]);
      if planned.Some? {
        NameBagSum(plans, [planned.value]);
        assert ItemNames([planned.value]) == ItemNames([it]);
      }
    }

    /**
     Wait for the branches still building, then look once more at everything red. Each branch is
     executed, recorded as given up, dropped after a re-cut, or still waiting.
     */
    method MergeTheRest(waiting: seq<Item>, red: seq<Item>, rounds: nat)
      returns (left: seq<Item>, done: seq<Item>, ghost gone: seq<string>, ghost dropped: seq<string>)
      requires Valid() && Distinct(validTargets)
      requires Queue(waiting, merged) && AtMostOnce(NameBag(waiting))
      requires Queue(red, merged) && AtMostOnce(NameBag(red))
      requires forall x, y | x in waiting && y in red :: x.src.name != y.src.name
      modifies this`refs, this`remote, this`tips, this`head, this`published, this`trials, this`ledger, this`merged,
        this`trailers, this`outcomes, this`ready, this`backups, this`executed, this`answers
      ensures Valid() && BatchStep(cfg, startRows, old(W()), W(), done) && executed == old(executed) + done
      ensures Distinct(ItemNames(done))
      ensures NameBag(waiting + red) == NameBag(done) + multiset(gone) + multiset(dropped) + NameBag(left)
      ensures old(outcomes) <= outcomes && Noted(outcomes, |old(outcomes)|, gone)
      ensures AllJustified(cfg, signatures, Heard(), done) && Later(old(Heard()), Heard(), NameSet(waiting + red))
      ensures LeavesRewrites(cfg) ==> SameWork(done, waiting + red)
      ensures cfg.localStandIn && cfg.doCompile && |waiting| <= rounds ==> left == []
    {
      hide Sound, Steady, BatchStep, Settles, Noted, Queue, NameBag, AllJustified, SameWork, Distinct, AtMostOnce,
        ItemNames, StillToMerge, Untried, Justified, Later, NameSet, AllGreen;
      var tally := Revisit(waiting, rounds);
      ghost var waited, known, seen := W(), Heard(), outcomes;
      RedQueue(cfg, startRows, old(W()), waited, waiting, tally, red);
      var last;
      ghost var lastGone;
      last, lastGone, dropped := RetryFailed(red + tally.late);
      left, done, gone := tally.left, tally.done + last, tally.gone + lastGone;
      PartOfBag(NameBag(red + tally.late), NameBag(last), multiset(lastGone), multiset(dropped));
      RestTogether(cfg, startRows, signatures, old(W()), waited, W(), waiting, tally, red, last, known, Heard());
      RestCounted(waiting, tally, red, last, lastGone, dropped);
      StaysNoted(seen, outcomes, |old(outcomes)|, tally.gone);
      NotedTogether(outcomes, |old(outcomes)|, |seen|, tally.gone, lastGone);
      RestAsked(waiting, tally, red, old(Heard()), known, Heard());
    }

    /** The merging half of run(): the ready branches, the ones still building, then the red ones. */
    method MergeParts(ghost approved: seq<Item>, parts: Parts, rounds: nat)
      returns (left: seq<Item>, done: seq<Item>, ghost gone: seq<string>, ghost dropped: seq<string>)
      requires Valid() && Distinct(validTargets) && PartsReady(approved, parts)
      modifies this`refs, this`remote, this`tips, this`head, this`published, this`trials, this`ledger, this`merged,
        this`trailers, this`outcomes, this`ready, this`backups, this`executed, this`answers
      ensures Valid() && BatchStep(cfg, startRows, old(W()), W(), done) && executed == old(executed) + done
      ensures AllJustified(cfg, signatures, Heard(), done) && PartsDone(approved, parts, left, done, gone, dropped)
      ensures old(outcomes) <= outcomes && Noted(outcomes, |old(outcomes)|, gone)
      ensures parts.ready <= done
      ensures LeavesRewrites(cfg) ==> SameWork(done, approved)
      ensures cfg.localStandIn && cfg.doCompile && |parts.pending| <= rounds ==> left == []
    {
      hide Sound, Steady, BatchStep, Noted, NameBag, AllJustified, SameWork, Queue, ItemNames, AtMostOnce, Distinct,
        StillToMerge, Later, NameSet, PartsDone;
      MergeTheReady(approved, parts);
      ghost var merging, ready, seen := W(), Heard(), outcomes;
      var rest;
      left, rest, gone, dropped := MergeTheRest(parts.pending, parts.red, rounds);
      done := parts.ready + rest;
      BatchTwice(cfg, startRows, old(W()), merging, W(), parts.ready, rest);
      ReadyNotAsked(approved, parts);
      StaysJustified(cfg, signatures, ready, Heard(), NameSet(parts.pending + parts.red), parts.ready);
      JustifiedTogether(cfg, signatures, Heard(), parts.ready, rest);
      PartsAddUp(approved, parts, left, rest, gone, dropped);
      NotedFromEarlier(outcomes, |old(outcomes)|, |seen|, gone);
      if LeavesRewrites(cfg) {
        AllSameWork(approved, parts, rest);
      }
    }

    /** The ready ones merged; the other parts go on waiting. */
    method MergeTheReady(ghost approved: seq<Item>, parts: Parts)
      requires Valid() && PartsReady(approved, parts)
      modifies this`refs, this`remote, this`tips, this`head, this`published, this`trials, this`ledger, this`merged,
        this`trailers, this`outcomes, this`ready, this`backups, this`executed
      ensures Valid() && BatchStep(cfg, startRows, old(W()), W(), parts.ready) &&
        executed == old(executed) + parts.ready
      ensures PartsWait(approved, parts) && old(outcomes) <= outcomes
    {
      hide Sound, Steady, BatchStep, NameBag, AllJustified, Queue, ItemNames, AtMostOnce, Distinct, Later, NameSet,
        Booked, Attempts;
      ghost var before, known := W(), Heard();
      MergeAll(parts.ready);
      ApartStaysQueue(cfg, startRows, before, W(), parts.ready, parts.ready, parts.pending);
      ApartStaysQueue(cfg, startRows, before, W(), parts.ready, parts.ready, parts.red);
      OnlyRecorded(known, Heard());
      StaysJustified(cfg, signatures, known, Heard(), {}, parts.ready);
    }

    /** The parts of an approved list, ready to be merged. */
    ghost predicate PartsReady(approved: seq<Item>, parts: Parts)
      reads this
    {
      StillToMerge(parts.ready, merged) && PartsWait(approved, parts)
    }

    /** The ready ones may be executed, or have been; the others may wait. */
    ghost predicate PartsWait(approved: seq<Item>, parts: Parts)
      reads this
    {
      && Distinct(ItemNames(parts.ready)) && AllJustified(cfg, signatures, Heard(), parts.ready)
      && Queue(parts.pending, merged) && AtMostOnce(NameBag(parts.pending))
      && Queue(parts.red, merged) && AtMostOnce(NameBag(parts.red))
      && PartsApart3(approved, parts)
    }

    /** The families of these plans that pass the approval gate as it stands. */
    ghost function PassedStems(plans: seq<Item>): set<string>
      reads this`saidYes
    {
      set p | p in plans && Passed(plans, Stem(cfg, p)) :: Stem(cfg, p)
    }

    lemma PlansRouted(look: Look, names: seq<string>, plans: seq<Item>)
      requires Stands(look) && LookBag(look) == multiset(names) && Distinct(names)
      requires NameBag(plans) <= NameBag(look.ready + look.still + look.late)
      requires forall p | p in plans :: exists it | it in look.ready + look.still + look.late ::
        SameStanding(p.src, it.src)
      ensures NameSet(look.still) !! NameSet(look.late) && Distinct(ItemNames(plans))
      ensures Routed(cfg, signatures, Heard(), held, plans, NameSet(look.still), NameSet(look.late))
      ensures forall p | p in plans :: p.src.name in names && p.src.name !in held
    {
      hide NameBag, Untried, Justified;
      PilesRouted(cfg, signatures, Heard(), held, look, names);
      RoutedPlans(cfg, signatures, Heard(), held, look.ready + look.still + look.late, plans, NameSet(look.still),
        NameSet(look.late));
      BagPartDistinct(plans, look.ready + look.still + look.late);
    }

    /** run(), from the fetches to the list of plans. */
    method Gather(entries: seq<Entry>)
      returns (plans: seq<Item>, flight: set<string>, retry: set<string>, ghost survey: Survey)
      requires Valid() && ready == {} && Distinct(Names(entries))
      modifies this`refs, this`tips, this`head, this`ready, this`backups, this`validTargets, this`listed,
        this`answers, this`outcomes
      ensures Valid() && BatchStep(cfg, startRows, old(W()), W(), []) && merged == old(merged)
      ensures outcomes == old(outcomes) + survey.events && Distinct(validTargets)
      ensures flight !! retry && Routed(cfg, signatures, Heard(), held, plans, flight, retry)
      ensures Distinct(ItemNames(plans)) && StillToMerge(plans, merged)
      ensures forall p | p in plans :: p.src.name in Names(entries) && p.src.name !in held
      ensures survey.flight == flight && survey.retry == retry && survey.refs == refs
      ensures if survey.fetched then Surveyed(cfg, signatures, held, startRows, old(merged), entries, survey, plans)
        else plans == []
    {
      hide Sound, BatchStep, NameBag, LookBag, Stands, Routed, StillToMerge, Piled, Surveyed, Distinct;
      plans, flight, retry, validTargets := [], {}, {}, [];
      NothingPlanned();
      var fetched, look;
      fetched, look, survey := FetchAndSort(entries);
      if fetched {
        ghost var sorted := W();
        plans, flight, retry, survey := PrepareAndPlan(entries, look, survey);
        BatchTwice(cfg, startRows, old(W()), sorted, W(), [], []);
        ghost var nobody: seq<Item> := [];
        assert nobody + nobody == nobody;
        SurveyedNames(cfg, signatures, held, startRows, merged, entries, survey, plans);
      }
    }

    lemma NothingPlanned()
      ensures Distinct(ItemNames([])) && StillToMerge([], merged) && Distinct<string>([])
      ensures forall heard :: Routed(cfg, signatures, heard, held, [], {}, {})
    {
    }

    /** Both remotes fetched, and the listed branches sorted by their CI. */
    method FetchAndSort(entries: seq<Entry>) returns (fetched: bool, look: Look, ghost survey: Survey)
      requires Valid() && ready == {} && Distinct(Names(entries))
      modifies this`refs, this`listed, this`answers, this`outcomes
      ensures Valid() && BatchStep(cfg, startRows, old(W()), W(), []) && W() == old(W()).(refs := refs)
      ensures outcomes == old(outcomes) + survey.events && survey.fetched == fetched && |survey.states| <= |entries|
      ensures survey == Survey(fetched, refs, survey.states, survey.events, [], {}, {}, {})
      ensures fetched ==>
        && listed == Names(entries) && Stands(look) && LookBag(look) == multiset(Names(entries))
        && |survey.states| == |entries|
        && Piled(cfg, signatures, refs, held, entries, survey.states, look, survey.events)
    {
      hide Sound, BatchStep, LookBag, Stands, ClassifiedAll, Piled;
      look := Look([], [], [], []);
      fetched := FetchAll();
      EmptyBatch(cfg, startRows, old(W()), W());
      survey := Survey(fetched, refs, [], [], [], {}, {}, {});
      if fetched {
        listed := Names(entries);
        ghost var states;
        look, states := Classify(entries);
        ClassifiedMeaning(cfg, signatures, refs, held, entries, states);
        survey := survey.(states := states, events := outcomes[|old(outcomes)|..]);
      }
    }

    /** The second half of it: the targets made ready, and the sorted branches planned. */
    method PrepareAndPlan(entries: seq<Entry>, look: Look, ghost sorted: Survey)
      returns (plans: seq<Item>, flight: set<string>, retry: set<string>, ghost survey: Survey)
      requires Valid() && ready == {} && Distinct(Names(entries)) && listed == Names(entries) && validTargets == []
      requires Stands(look) && LookBag(look) == multiset(Names(entries))
      requires |sorted.states| == |entries| && sorted.refs == refs && sorted.valid == []
      requires sorted.fetched && sorted.flight == {} && sorted.retry == {}
      requires Piled(cfg, signatures, refs, held, entries, sorted.states, look, sorted.events)
      modifies this`tips, this`head, this`ready, this`backups, this`validTargets
      ensures Valid() && BatchStep(cfg, startRows, old(W()), W(), []) && Distinct(validTargets)
      ensures flight !! retry && Routed(cfg, signatures, Heard(), held, plans, flight, retry)
      ensures StillToMerge(plans, merged) && forall p | p in plans :: p.src.name !in held
      ensures survey == sorted.(valid := validTargets, stuck := survey.stuck, flight := flight, retry := retry)
      ensures Surveyed(cfg, signatures, held, startRows, merged, entries, survey, plans)
    {
      hide Sound, BatchStep, NameBag, LookBag, Stands, SameStanding, Justified, Untried, IsPlanOf, Piled, Surveyed,
        Usable, PlannedFrom;
      plans, flight, retry, survey := [], {}, {}, sorted;
      EmptyBatch(cfg, startRows, old(W()), W());
      var seen := look.ready + look.still + look.late;
      if seen == [] {
        AllSurveyed(cfg, signatures, held, startRows, merged, entries, survey, look, plans);
        return;
      }
      ghost var stuck, at := PrepareTargets();
      EmptyBatch(cfg, startRows, old(W()), W());
      survey := survey.(valid := validTargets, stuck := stuck);
      assert Usable(cfg.targets, refs, stuck, validTargets, at);
      if validTargets == [] {
        AllSurveyed(cfg, signatures, held, startRows, merged, entries, survey, look, plans);
        return;
      }
      flight, retry := NameSet(look.still), NameSet(look.late);
      plans := PlanAll(seen);
      PlansRouted(look, Names(entries), plans);
      survey := survey.(flight := flight, retry := retry);
      PlansAreFrom(seen, plans);
      AllSurveyed(cfg, signatures, held, startRows, merged, entries, survey, look, plans);
    }

    lemma PlansAreFrom(seen: seq<Item>, plans: seq<Item>)
      requires PlansOf(seen, plans)
      ensures PlannedFrom(cfg, refs, Now(), seen, plans)
    {
      hide PlanOf;
    }

    /**
     run(). Watched for `rounds` rounds of waiting; `left` are the branches still waiting then.
     Every branch executed is listed, not held, executed once, approved and justified: CI was
     waived, or GitHub's last answer about its very fork head was green, or that answer was
     "running" and a local build stood in, on record. Once the fetches work, every listed branch
     that is not held, is on the fork and has CI to go by is planned as plan() decides, and every
     other one is on record. Every approved branch is executed, recorded as given up, dropped after
     a re-cut, or left waiting; the green ones are executed first. Unless rewrites are cut again a
     branch is executed exactly as planned and approved. Everything published has its ledger row,
     was reviewed and built as far as asked for, and no pair is merged twice.
     */
    method Run(entries: seq<Entry>, rounds: nat)
      returns (left: seq<Item>, done: seq<Item>, ghost plans: seq<Item>, ghost approved: seq<Item>,
        ghost gone: seq<string>, ghost dropped: seq<string>, ghost survey: Survey)
      requires Valid() && ready == {} && executed == [] && saidYes == {} && Distinct(Names(entries))
      modifies this
      ensures Valid() && BatchStep(cfg, startRows, old(W()), W(), done) && executed == done
      ensures RightlyExecuted(cfg, signatures, Heard(), held, Names(entries), PassedStems(plans), done)
      ensures if survey.fetched then Surveyed(cfg, signatures, held, startRows, old(merged), entries, survey, plans)
        else plans == []
      ensures old(outcomes) + survey.events <= outcomes
      ensures forall it :: it in approved <==> it in plans && Passed(plans, Stem(cfg, it))
      ensures forall it | it in plans && it !in approved :: Event(it.src.name, "-", NotApproved) in outcomes
      ensures PartsOf(approved, survey.flight, survey.retry).ready <= done
      ensures NameBag(approved) == NameBag(done) + multiset(gone) + multiset(dropped) + NameBag(left)
      ensures |old(outcomes)| <= |outcomes| && Noted(outcomes, |old(outcomes)|, gone)
      ensures LeavesRewrites(cfg) ==> SameWork(done, approved)
      ensures cfg.localStandIn && cfg.doCompile && |plans| <= rounds ==> left == []
      ensures !cfg.ignoreLedger ==>
        NoRepeats(NewRows(old(W()), W())) && MergedPairs(NewRows(old(W()), W())) !! MergedPairs(old(ledger))
    {
      hide Sound, BatchStep, NoRepeats, SameWork, RightlyExecuted, AllJustified, StillToMerge, Routed, Noted,
        NameBag, Passed, PassedStems, NewRows, LedgerCommit, Surveyed, Later, NameSet, Justified, Distinct;
      left, done := [], [];
      ghost var before := Heard();
      var planned, flight, retry;
      planned, flight, retry, survey := Gather(entries);
      plans := planned;
      ghost var gathered, known := W(), Heard();
      var passed := Approve(planned);
      ghost var seen := outcomes;
      OnlyRecorded(known, Heard());
      RoutedLater(cfg, signatures, known, Heard(), held, planned, flight, retry);
      approved := passed;
      TurnedDownAreNoted(plans, approved, known.events, seen);
      var parts := PartsOf(passed, flight, retry);
      PartsAreReady(planned, passed, flight, retry);
      PartsHoldAll(passed, flight, retry);
      PartNoLonger(parts.pending, planned);
      left, done, gone, dropped := MergeParts(passed, parts, rounds);
      BatchTwice(cfg, startRows, old(W()), gathered, W(), [], done);
      assert [] + done == done;
      GateStems(plans, approved);
      SameGate(cfg, signatures, Heard(), held, Names(entries), PassedStems(plans), plans, approved, done);
      NotedFromEarlier(outcomes, |old(outcomes)|, |seen|, gone);
      if !cfg.ignoreLedger {
        LedgerStaysUnique(cfg, detached, startRows, old(W()), W(), done);
      }
    }

    lemma TurnedDownAreNoted(plans: seq<Item>, approved: seq<Item>, before: seq<Event>, after: seq<Event>)
      requires forall it :: it in approved <==> it in plans && Passed(plans, Stem(cfg, it))
      requires before <= after && forall e :: e in after[|before|..] <==>
        exists it | it in plans && !Passed(plans, Stem(cfg, it)) :: e == Event(it.src.name, "-", NotApproved)
      ensures forall it | it in plans && it !in approved :: Event(it.src.name, "-", NotApproved) in after
    {
      hide Passed, Stem;
      forall e | e in after[|before|..] ensures e in after {
      }
    }

    lemma GateStems(plans: seq<Item>, approved: seq<Item>)
      requires forall it :: it in approved <==> it in plans && Passed(plans, Stem(cfg, it))
      ensures forall p | p in approved :: p in plans && Stem(cfg, p) in PassedStems(plans)
    {
      hide Stem, Passed;
    }

    lemma PartsAreReady(plans: seq<Item>, approved: seq<Item>, flight: set<string>, retry: set<string>)
      requires Routed(cfg, signatures, Heard(), held, plans, flight, retry) && StillToMerge(plans, merged) &&
        flight !! retry
      requires Distinct(ItemNames(approved)) && forall it | it in approved :: it in plans
      ensures PartsReady(approved, PartsOf(approved, flight, retry))
      ensures Distinct(ItemNames(PartsOf(approved, flight, retry).pending))
      ensures forall it | it in PartsOf(approved, flight, retry).pending :: it in plans
    {
      PartsMeaning(cfg, signatures, Heard(), held, approved, flight, retry, merged);
      DistinctBag(ItemNames(PartsOf(approved, flight, retry).pending));
    }
  }
}
