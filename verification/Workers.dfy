/**
 Parallel workers (run_in_parallel() and push_target()): every interleaving of their steps,
 of other people's pushes, and of the mirror catching up.

 A worker takes a branch off the work list. For each of its targets, master first, it picks a
 series in its own worktree, queues for the target's push lock, pushes, rebases and retries
 while it holds the lock, and writes the ledger row after letting it go.
 */
module Workers {
  import opened Wrappers
  import opened Routing
  import opened Repository
  import opened BatchState

  /** Who put a commit on a branch of the push remote. */
  datatype Owner = Theirs | Ours(name: string)

  datatype Phase =
    | Idle
    | Picked                                  // a series is picked; the lock is not held
    | Ready(attempt: nat)                     // about to run the attempt-th push
    | Rejected(attempt: nat)                  // that push was no fast-forward
    | Rebasing(attempt: nat, onto: History)   // a tip to rebase on has been fetched
    | Owing                                 // pushed, lock released, no ledger row yet

  /**
   A worker with its branch: the targets still to do, the branch's own commits, and the series as it
   is on master, if it is. `calm` stays true while nobody but lock holders pushes to the target and
   fetches work.
   */
  datatype Worker = Worker(
    phase: Phase,
    taken: bool,
    name: string,
    todo: seq<string>,
    commits: History,
    onMaster: History,
    target: string,
    base: History,
    head: History,
    series: History,
    calm: bool)

  /** An approved branch: where it was cut, its commits, and its targets, master first. */
  datatype Job = Job(name: string, base: History, commits: History, order: seq<string>)

  datatype Cluster = Cluster(
    remote: Remote,
    owners: map<string, seq<Owner>>,
    mirror: map<string, nat>,
    holder: map<string, nat>,
    workers: seq<Worker>,
    queue: seq<Job>,
    remembered: map<string, Commit>,
    ledger: set<(string, string)>,
    published: seq<(string, string)>,
    trailers: set<(string, nat)>)

  datatype Step =
    | Take(w: nat)
    | Skip(w: nat)
    | Start(w: nat, series: History)
    | GiveUp(w: nat)
    | Lock(w: nat)
    | Push(w: nat)
    | Refuse(w: nat)
    | Fetch(w: nat, works: bool, seen: nat)
    | Rebase(w: nat, ids: seq<nat>)
    | RebaseFails(w: nat)
    | Write(w: nat, landed: History)
    | OutsidePush(target: string, commits: History)
    | MirrorMoves(target: string, seen: nat)

  /** Upstream's master as the mirror shows it. */
  function MasterSeen(c: Cluster): History {
    if "master" in c.remote && "master" in c.mirror && c.mirror["master"] <= |c.remote["master"]| then
      c.remote["master"][..c.mirror["master"]]
    else []
  }

  /** The branch's series as it is on upstream master, or as the ledger remembers it; [] unless all of it is. */
  function FoundOnMaster(c: Cluster, job: Job): History {
    OnMaster(job.commits, if job.name in c.remembered then Some(c.remembered[job.name]) else None,
      Span(job.base, MasterSeen(c)))
  }

  /** The worker is at work on its target: taken up, not pushed yet. */
  predicate AtWork(me: Worker) { me.phase != Idle && me.phase != Owing }

  predicate Holding(p: Phase) { p.Ready? || p.Rejected? || p.Rebasing? }

  /** What a worker picks for its next target: the branch's commits, or the series as it landed on master, with -x. */
  function NextSeries(me: Worker): History { ToPick(me.commits, me.onMaster) }

  ghost predicate Enabled(c: Cluster, s: Step) {
    match s
    case Take(w) => w < |c.workers| && c.workers[w].phase == Idle && c.workers[w].todo == [] && c.queue != []
    case Skip(w) => w < |c.workers| && c.workers[w].phase == Idle && c.workers[w].todo != []
    case Start(w, series) =>
      && w < |c.workers| && c.workers[w].phase == Idle && c.workers[w].todo != []
      && (var target := c.workers[w].todo[0];
          target in c.remote && target in c.mirror && c.mirror[target] <= |c.remote[target]|)
      && PicksAbove(series, 0, NextSeries(c.workers[w]), c.workers[w].onMaster != [])
    case GiveUp(w) => w < |c.workers| && c.workers[w].phase == Picked
    case Lock(w) => w < |c.workers| && c.workers[w].phase == Picked && c.workers[w].target !in c.holder
    case Push(w) => w < |c.workers| && c.workers[w].phase.Ready? && c.workers[w].target in c.remote
      && c.workers[w].target in c.owners && c.workers[w].target in c.holder
    case Refuse(w) => w < |c.workers| && c.workers[w].phase.Ready?
    case Fetch(w, works, seen) => w < |c.workers| && c.workers[w].phase.Rejected? && c.workers[w].target in c.remote
      && seen <= |c.remote[c.workers[w].target]|
    case Rebase(w, _) => w < |c.workers| && c.workers[w].phase.Rebasing?
    case RebaseFails(w) => w < |c.workers| && c.workers[w].phase.Rebasing?
    case Write(w, landed) => w < |c.workers| && c.workers[w].phase == Owing && forall x | x in landed ::
      x in c.workers[w].head
    case OutsidePush(target, _) => target in c.remote && target in c.owners
    case MirrorMoves(target, seen) =>
      target in c.remote && target in c.mirror && c.mirror[target] <= seen <= |c.remote[target]|
  }

  function Repeat(o: Owner, n: nat): (run: seq<Owner>)
    ensures |run| == n && forall k | 0 <= k < n :: run[k] == o
  {
    seq(n, _ => o)
  }

  /** The worker lets go of its lock and goes back to waiting for work; its HEAD is reset. */
  function Abandon(c: Cluster, w: nat): Cluster
    requires w < |c.workers|
  {
    c.(holder := c.holder - {c.workers[w].target}, workers := c.workers[w := c.workers[w].(phase := Idle)])
  }

  function Disturbed(workers: seq<Worker>, target: string): (after: seq<Worker>)
    ensures |after| == |workers|
    ensures forall i | 0 <= i < |workers| ::
      after[i] == if workers[i].target == target then workers[i].(calm := false) else workers[i]
  {
    seq(|workers|, i requires 0 <= i < |workers| =>
      if workers[i].target == target then workers[i].(calm := false) else workers[i])
  }

  function Next(c: Cluster, s: Step): Cluster
    requires Enabled(c, s)
  {
    match s
    case Take(w) =>
      var job := c.queue[0];
      var found := if "master" in job.order then [] else FoundOnMaster(c, job);
      c.(queue := c.queue[1..],
         workers := c.workers[w := c.workers[w].(taken := true, name := job.name, todo := job.order,
           commits := job.commits, onMaster := found)])
    case Skip(w) => c.(workers := c.workers[w := c.workers[w].(todo := c.workers[w].todo[1..])])
    case Start(w, series) =>
      var me := c.workers[w];
      var target := me.todo[0];
      var tip := c.remote[target][..c.mirror[target]];
      c.(workers := c.workers[w := me.(phase := Picked, todo := me.todo[1..], target := target, base := tip,
        head := tip + series,
                                       series := series, calm := true)],
         trailers := c.trailers + if me.onMaster == [] then {} else set x | x in NextSeries(me) :: (me.name, x.id))
    case GiveUp(w) => c.(workers := c.workers[w := c.workers[w].(phase := Idle)])
    case Lock(w) =>
      c.(holder := c.holder[c.workers[w].target := w],
        workers := c.workers[w := c.workers[w].(phase := Ready(1), calm := true)])
    case Push(w) =>
      var me := c.workers[w];
      if c.remote[me.target] <= me.head then
        c.(remote := c.remote[me.target := me.head],
           owners := c.owners[me.target := c.owners[me.target] +
             Repeat(Ours(me.name), |me.head| - |c.remote[me.target]|)],
           holder := c.holder - {me.target},
           published := c.published + [(me.name, me.target)],
           workers := c.workers[w := me.(phase := Owing)])
      else
        c.(workers := c.workers[w := me.(phase := Rejected(me.phase.attempt))])
    case Refuse(w) => Abandon(c, w)
    case Fetch(w, works, seen) =>
      var me := c.workers[w];
      var onto := if works then c.remote[me.target] else c.remote[me.target][..seen];
      c.(workers := c.workers[w := me.(phase := Rebasing(me.phase.attempt, onto), calm := me.calm && works)])
    case Rebase(w, ids) =>
      var me := c.workers[w];
      var onto := me.phase.onto;
      if me.phase.attempt >= 3 then Abandon(c, w)
      else
        c.(workers := c.workers[w := me.(phase := Ready(me.phase.attempt + 1), head := Rebased(me.head, onto, ids),
                                         base := if onto <= me.base then me.base else onto)])
    case RebaseFails(w) => Abandon(c, w)
    case Write(w, landed) =>
      var me := c.workers[w];
      c.(ledger := c.ledger + {(me.name, me.target)},
         workers := c.workers[w := me.(phase := Idle, onMaster := if me.target ==
           "master" then landed else me.onMaster)])
    case OutsidePush(target, commits) =>
      c.(remote := c.remote[target := c.remote[target] + commits],
         owners := c.owners[target := c.owners[target] + Repeat(Theirs, |commits|)],
         workers := Disturbed(c.workers, target))
    case MirrorMoves(target, seen) => c.(mirror := c.mirror[target := seen])
  }

  // ------------------------------------------------------------ invariants

  /** Owners are recorded commit by commit, and the mirror shows a prefix. */
  ghost predicate Shape(c: Cluster) {
    && c.owners.Keys == c.remote.Keys && c.mirror.Keys <= c.remote.Keys
    && (forall t | t in c.remote :: |c.owners[t]| == |c.remote[t]|)
    && (forall t | t in c.mirror :: c.mirror[t] <= |c.remote[t]|)
  }

  /** A lock is held by exactly the worker that is pushing to its target. */
  ghost predicate LocksHeld(c: Cluster) {
    && (forall t | t in c.holder ::
      c.holder[t] < |c.workers| && c.workers[c.holder[t]].target == t && Holding(c.workers[c.holder[t]].phase))
    && (forall w | 0 <= w < |c.workers| && Holding(c.workers[w].phase) ::
      c.workers[w].target in c.holder && c.holder[c.workers[w].target] == w)
  }

  /** A busy worker's HEAD is a tip the remote had, with copies of its own series and nothing else on top. */
  ghost predicate OwnWork(c: Cluster, me: Worker) {
    me.phase != Idle && me.phase != Owing ==>
      && me.target in c.remote && me.base <= me.head && me.base <= c.remote[me.target]
      && CopiesAbove(me.head, |me.base|, me.series)
      && (me.phase.Rebasing? ==> me.phase.onto <= c.remote[me.target])
  }

  /** While things are calm the second push of a lock holder is a fast-forward. */
  ghost predicate SecondTryFits(c: Cluster, me: Worker) {
    && (me.phase.Rebasing? && me.calm ==> me.target in c.remote && me.phase.onto == c.remote[me.target])
    && (me.phase.Ready? && me.calm && me.phase.attempt > 1 ==> me.target in c.remote && c.remote[me.target] <= me.head)
    && (me.phase.Rejected? && me.calm ==> me.phase.attempt == 1)
    && (me.phase.Rebasing? && me.calm ==> me.phase.attempt == 1)
    && (me.phase.Ready? && me.calm ==> me.phase.attempt <= 2)
    && (Holding(me.phase) ==> 1 <= me.phase.attempt <= 3)
  }

  /** Whatever is ours on the remote has its ledger row, or a worker that is about to write it. */
  ghost predicate Accounted(c: Cluster) {
    forall t, k | t in c.owners && 0 <= k < |c.owners[t]| && c.owners[t][k].Ours? ::
      (c.owners[t][k].name, t) in c.ledger || Owed(c, c.owners[t][k].name, t)
  }

  ghost predicate Owed(c: Cluster, name: string, target: string) {
    exists w | 0 <= w < |c.workers| ::
      c.workers[w].phase == Owing && c.workers[w].name == name && c.workers[w].target == target
  }

  ghost predicate Inv(c: Cluster) {
    && Shape(c) && LocksHeld(c) && Accounted(c)
    && forall w | 0 <= w < |c.workers| :: OwnWork(c, c.workers[w]) && SecondTryFits(c, c.workers[w])
  }

  /** A worker that has had no branch yet. */
  predicate IsFree(me: Worker) { me.phase == Idle && !me.taken && me.todo == [] && me.onMaster == [] }

  ghost predicate Initial(c: Cluster) {
    && Shape(c) && c.holder == map[]
    && (forall w | 0 <= w < |c.workers| :: IsFree(c.workers[w]))
    && c.published == [] && c.trailers == {} && WorkList(c.queue)
    && (forall t, k | t in c.owners && 0 <= k < |c.owners[t]| :: c.owners[t][k] == Theirs)
  }

  /** The work list names each branch once, and for each its targets once. */
  ghost predicate WorkList(queue: seq<Job>) {
    && (forall i, j | 0 <= i < j < |queue| :: queue[i].name != queue[j].name)
    && forall i | 0 <= i < |queue| :: Distinct(queue[i].order)
  }

  lemma InitialInv(c: Cluster)
    requires Initial(c)
    ensures Inv(c)
  {
  }

  /** Only pushes change the remote, and only the mirror's own steps change it. */
  lemma OnlyPushesMove(c: Cluster, s: Step)
    requires Enabled(c, s)
    ensures !s.Push? && !s.OutsidePush? ==> Next(c, s).remote == c.remote && Next(c, s).owners == c.owners
    ensures !s.MirrorMoves? ==> Next(c, s).mirror == c.mirror
    ensures |Next(c, s).workers| == |c.workers|
  {
    hide PicksAbove, FoundOnMaster, NextSeries, Repeat;
    if Works(s) {
      WorkingStep(c, s);
      LocksMove(c, s);
      hide Next, Enabled;
    }
  }

  lemma StepGrows(c: Cluster, s: Step)
    requires Shape(c) && Enabled(c, s)
    ensures Grew(c.remote, Next(c, s).remote)
  {
    hide Rebased, PicksAbove, FoundOnMaster, NextSeries, Repeat;
    if s.Push? || s.OutsidePush? {
      hide Shape;
    } else {
      hide Next, Enabled;
      OnlyPushesMove(c, s);
    }
  }

  lemma StepShape(c: Cluster, s: Step)
    requires Shape(c) && Enabled(c, s)
    ensures Shape(Next(c, s))
  {
    hide Rebased, PicksAbove, FoundOnMaster, NextSeries;
    if !s.Push? && !s.OutsidePush? && !s.MirrorMoves? {
      hide Next, Enabled;
      OnlyPushesMove(c, s);
    }
  }

  /** A worker that goes on holding (or not holding) the same lock changes nothing about locks. */
  lemma LocksKept(c: Cluster, d: Cluster)
    requires LocksHeld(c) && d.holder == c.holder && |d.workers| == |c.workers|
    requires forall i | 0 <= i < |c.workers| ::
      && Holding(d.workers[i].phase) == Holding(c.workers[i].phase)
      && (Holding(c.workers[i].phase) ==> d.workers[i].target == c.workers[i].target)
    ensures LocksHeld(d)
  {
  }

  lemma LockTaken(c: Cluster, w: nat, me: Worker)
    requires LocksHeld(c) && w < |c.workers| && !Holding(c.workers[w].phase) && Holding(me.phase) &&
      me.target !in c.holder
    ensures LocksHeld(c.(holder := c.holder[me.target := w], workers := c.workers[w := me]))
  {
  }

  lemma LockReleased(c: Cluster, w: nat, me: Worker)
    requires LocksHeld(c) && w < |c.workers| && Holding(c.workers[w].phase) && !Holding(me.phase)
    ensures LocksHeld(c.(holder := c.holder - {c.workers[w].target}, workers := c.workers[w := me]))
  {
  }

  lemma LocksElsewhere(c: Cluster, d: Cluster)
    requires LocksHeld(c) && d.holder == c.holder && d.workers == c.workers
    ensures LocksHeld(d)
  {
  }

  /** A worker's step leaves the locks, and what it holds, as they are. */
  ghost predicate LocksLeft(c: Cluster, d: Cluster, w: nat)
    requires w < |c.workers| && w < |d.workers|
  {
    && d.holder == c.holder && Holding(d.workers[w].phase) == Holding(c.workers[w].phase)
    && (Holding(c.workers[w].phase) ==> d.workers[w].target == c.workers[w].target)
  }

  /** It takes a lock that was free. */
  ghost predicate LockTakenBy(c: Cluster, d: Cluster, w: nat)
    requires w < |c.workers| && w < |d.workers|
  {
    && d.holder == c.holder[d.workers[w].target := w] && d.workers[w].target !in c.holder
    && !Holding(c.workers[w].phase) && Holding(d.workers[w].phase)
  }

  /** It lets go of its own. */
  ghost predicate LockReleasedBy(c: Cluster, d: Cluster, w: nat)
    requires w < |c.workers| && w < |d.workers|
  {
    d.holder == c.holder - {c.workers[w].target} && Holding(c.workers[w].phase) && !Holding(d.workers[w].phase)
  }

  lemma QuietSteps(c: Cluster, s: Step)
    requires Enabled(c, s) && (s.Take? || s.Skip? || s.Start? || s.GiveUp? || s.Write?)
    ensures var d := Next(c, s); d.workers == c.workers[s.w := d.workers[s.w]] && LocksLeft(c, d, s.w)
  {
    hide PicksAbove, FoundOnMaster, NextSeries;
  }

  lemma LockSteps(c: Cluster, s: Step)
    requires Enabled(c, s) && (s.Lock? || s.Fetch?)
    ensures var d := Next(c, s); d.workers == c.workers[s.w := d.workers[s.w]]
    ensures if s.Lock? then LockTakenBy(c, Next(c, s), s.w) else LocksLeft(c, Next(c, s), s.w)
  {
  }

  lemma PushStep(c: Cluster, s: Step)
    requires Enabled(c, s) && s.Push?
    ensures var d := Next(c, s); d.workers == c.workers[s.w := d.workers[s.w]]
    ensures LocksLeft(c, Next(c, s), s.w) || LockReleasedBy(c, Next(c, s), s.w)
  {
    hide Repeat;
  }

  lemma EndingSteps(c: Cluster, s: Step)
    requires Enabled(c, s) && (s.Refuse? || s.RebaseFails?)
    ensures var d := Next(c, s); d.workers == c.workers[s.w := d.workers[s.w]] && LockReleasedBy(c, d, s.w)
  {
  }

  lemma AbandonReleases(c: Cluster, w: nat)
    requires w < |c.workers| && Holding(c.workers[w].phase)
    ensures var d := Abandon(c, w);
      d.workers == c.workers[w := d.workers[w]] && LockReleasedBy(c, d, w) && OnlyWorked(c, d, w)
  {
  }

  /** What a rebase does: after the third push it is over, before that it leads to the next. */
  lemma RebaseStep(c: Cluster, s: Step)
    requires Enabled(c, s) && s.Rebase?
    ensures s.w < |c.workers| && s.w < |Next(c, s).workers| && OnlyWorked(c, Next(c, s), s.w)
    ensures var d := Next(c, s); d.workers == c.workers[s.w := d.workers[s.w]]
    ensures LocksLeft(c, Next(c, s), s.w) || LockReleasedBy(c, Next(c, s), s.w)
  {
    hide Rebased;
    if c.workers[s.w].phase.attempt >= 3 {
      AbandonReleases(c, s.w);
      assert Next(c, s) == Abandon(c, s.w);
      hide Next, Abandon;
    }
  }

  lemma LocksMove(c: Cluster, s: Step)
    requires Enabled(c, s) && !s.OutsidePush? && !s.MirrorMoves?
    ensures var d := Next(c, s);
      && s.w < |c.workers| && d.workers == c.workers[s.w := d.workers[s.w]]
      && (LocksLeft(c, d, s.w) || LockTakenBy(c, d, s.w) || LockReleasedBy(c, d, s.w))
  {
    hide Next, LocksLeft, LockTakenBy, LockReleasedBy;
    if s.Lock? || s.Fetch? {
      LockSteps(c, s);
    } else if s.Push? {
      PushStep(c, s);
    } else if s.Rebase? {
      RebaseStep(c, s);
    } else if s.Refuse? || s.RebaseFails? {
      EndingSteps(c, s);
    } else {
      QuietSteps(c, s);
    }
  }

  lemma OutsideLocks(c: Cluster, s: Step)
    requires LocksHeld(c) && Enabled(c, s) && (s.OutsidePush? || s.MirrorMoves?)
    ensures LocksHeld(Next(c, s))
  {
    hide LocksHeld;
    LocksKept(c, Next(c, s));
  }

  lemma StepLocks(c: Cluster, s: Step)
    requires LocksHeld(c) && Enabled(c, s)
    ensures LocksHeld(Next(c, s))
  {
    if s.OutsidePush? || s.MirrorMoves? {
      OutsideLocks(c, s);
    } else {
      LocksMove(c, s);
      hide Next, Enabled, LocksHeld;
      var d, w := Next(c, s), s.w;
      if LocksLeft(c, d, w) {
        LocksKept(c, d);
      } else if LockTakenBy(c, d, w) {
        LockTaken(c, w, d.workers[w]);
        LocksElsewhere(c.(holder := d.holder, workers := d.workers), d);
      } else {
        LockReleased(c, w, d.workers[w]);
        LocksElsewhere(c.(holder := d.holder, workers := d.workers), d);
      }
    }
  }

  /** Steps between taking a target up and pushing to it. */
  predicate Works(s: Step) { s.GiveUp? || s.Lock? || s.Refuse? || s.Fetch? || s.Rebase? || s.RebaseFails? }

  /** They change the worker's place in its push, and locks. */
  ghost predicate OnlyWorked(c: Cluster, d: Cluster, w: nat)
    requires w < |c.workers| && w < |d.workers|
  {
    var me, after := c.workers[w], d.workers[w];
    && after == me.(phase := after.phase, base := after.base, head := after.head, calm := after.calm)
    && AtWork(me) && after.phase != Owing
    && d == c.(holder := d.holder, workers := d.workers)
  }

  lemma EndingWorks(c: Cluster, s: Step)
    requires Enabled(c, s) && (s.GiveUp? || s.Lock? || s.Refuse? || s.RebaseFails?)
    ensures s.w < |Next(c, s).workers| && OnlyWorked(c, Next(c, s), s.w)
  {
  }

  lemma FetchWorks(c: Cluster, s: Step)
    requires Enabled(c, s) && s.Fetch?
    ensures s.w < |Next(c, s).workers| && OnlyWorked(c, Next(c, s), s.w)
  {
  }

  lemma WorkingStep(c: Cluster, s: Step)
    requires Enabled(c, s) && Works(s)
    ensures s.w < |c.workers| && s.w < |Next(c, s).workers| && OnlyWorked(c, Next(c, s), s.w)
  {
    hide Next, OnlyWorked;
    if s.Fetch? {
      FetchWorks(c, s);
    } else if s.Rebase? {
      RebaseStep(c, s);
    } else {
      EndingWorks(c, s);
    }
  }

  predicate IsBy(s: Step, v: nat) {
    match s
    case OutsidePush(_, _) => false
    case MirrorMoves(_, _) => false
    case _ => s.w == v
  }

  /** A worker is changed by its own steps only, but for its calm. */
  lemma OthersKeep(c: Cluster, s: Step, v: nat)
    requires Enabled(c, s) && v < |c.workers| && !IsBy(s, v)
    ensures |Next(c, s).workers| == |c.workers|
    ensures Next(c, s).workers[v] == c.workers[v].(calm := Next(c, s).workers[v].calm)
    ensures Next(c, s).workers[v].calm ==> c.workers[v].calm && !(s.OutsidePush? && s.target == c.workers[v].target)
  {
    if s.OutsidePush? || s.MirrorMoves? {
    } else {
      LocksMove(c, s);
      hide Next, Enabled;
    }
  }

  /** What the remote gains takes nothing from a worker's own work. */
  lemma OwnWorkStays(c: Cluster, d: Cluster, me: Worker, after: Worker)
    requires OwnWork(c, me) && Grew(c.remote, d.remote)
    requires after == me.(phase := after.phase, calm := after.calm) &&
      (me.phase == Idle || me.phase == Owing ==> after.phase == me.phase)
    requires after.phase.Rebasing? && after.phase != me.phase ==>
      me.target in d.remote && after.phase.onto <= d.remote[me.target]
    ensures OwnWork(d, after)
  {
    if me.phase != Idle && me.phase != Owing {
      assert c.remote[me.target] <= d.remote[me.target];
    }
  }

  lemma StartsOwnWork(c: Cluster, me: Worker, target: string, seen: nat, series: History)
    requires target in c.remote && seen <= |c.remote[target]|
    requires me.phase == Picked && me.target == target && me.base == c.remote[target][..seen] &&
      me.head == me.base + series
    requires me.series == series
    ensures OwnWork(c, me)
  {
    forall k | |me.base| <= k < |me.head| ensures IsCopy(me.head[k], series) {
      assert series[k - |me.base|] == me.head[k];
    }
  }

  lemma StepOwnWork(c: Cluster, s: Step, v: nat)
    requires Shape(c) && Enabled(c, s) && v < |c.workers| && OwnWork(c, c.workers[v])
    ensures v < |Next(c, s).workers| && OwnWork(Next(c, s), Next(c, s).workers[v])
  {
    hide Shape, OwnWork, Next, Enabled;
    StepGrows(c, s);
    if IsBy(s, v) {
      OwnStepOwnWork(c, s, v);
    } else {
      OthersStepOwnWork(c, s, v);
    }
  }

  lemma OthersStepOwnWork(c: Cluster, s: Step, v: nat)
    requires Enabled(c, s) && v < |c.workers| && OwnWork(c, c.workers[v]) && !IsBy(s, v)
    requires Grew(c.remote, Next(c, s).remote)
    ensures v < |Next(c, s).workers| && OwnWork(Next(c, s), Next(c, s).workers[v])
  {
    hide OwnWork, Grew, Next, Enabled;
    OthersKeep(c, s, v);
    OwnWorkStays(c, Next(c, s), c.workers[v], Next(c, s).workers[v]);
  }

  lemma OwnStepOwnWork(c: Cluster, s: Step, v: nat)
    requires Shape(c) && Enabled(c, s) && v < |c.workers| && OwnWork(c, c.workers[v]) && IsBy(s, v) &&
      Grew(c.remote, Next(c, s).remote)
    ensures v < |Next(c, s).workers| && OwnWork(Next(c, s), Next(c, s).workers[v])
  {
    hide Shape, Rebased, IsCopy, Replayed, SamePatch, Repeat, PicksAbove, FoundOnMaster, NextSeries, Grew,
      CopiesAbove, OwnWork;
    var me, d := c.workers[v], Next(c, s);
    if s.Rebase? && me.phase.attempt < 3 {
      RebasedOwnWork(c, s, v);
    } else if s.Start? {
      StartsOwnWork(d, d.workers[v], me.todo[0], c.mirror[me.todo[0]], s.series);
    } else if d.workers[v].phase == Idle || d.workers[v].phase == Owing {
      NoOwnWork(d, d.workers[v]);
    } else {
      if s.Fetch? { FetchedIsThere(c, s, v); }
      OwnWorkStays(c, d, me, d.workers[v]);
    }
  }

  lemma NoOwnWork(c: Cluster, me: Worker)
    requires me.phase == Idle || me.phase == Owing
    ensures OwnWork(c, me)
  {
  }

  lemma FetchedIsThere(c: Cluster, s: Step, v: nat)
    requires Enabled(c, s) && v < |c.workers| && IsBy(s, v) && s.Fetch?
    ensures var me := Next(c, s).workers[v];
      me.phase.Rebasing? && me.target in Next(c, s).remote && me.phase.onto <= Next(c, s).remote[me.target]
  {
  }

  lemma RebasedOwnWork(c: Cluster, s: Step, v: nat)
    requires Enabled(c, s) && v < |c.workers| && OwnWork(c, c.workers[v]) && s.Rebase? && s.w == v &&
      c.workers[v].phase.attempt < 3
    ensures v < |Next(c, s).workers| && OwnWork(Next(c, s), Next(c, s).workers[v])
  {
    hide Rebased, IsCopy, Replayed, CopiesAbove;
    var me := c.workers[v];
    RebasedKeeps(me.head, me.phase.onto, me.base, me.series, s.ids);
  }

  /** Steps of others touch a lock holder's target only by disturbing its calm. */
  lemma OthersStep(c: Cluster, s: Step, v: nat)
    requires LocksHeld(c) && Enabled(c, s) && v < |c.workers| && !IsBy(s, v)
    ensures v < |Next(c, s).workers| && Next(c, s).workers[v] == c.workers[v].(calm := Next(c, s).workers[v].calm)
    ensures Next(c, s).workers[v].calm ==> c.workers[v].calm
    ensures Next(c, s).workers[v].calm && Holding(c.workers[v].phase) && c.workers[v].target in c.remote ==>
      c.workers[v].target in Next(c, s).remote &&
        Next(c, s).remote[c.workers[v].target] == c.remote[c.workers[v].target]
  {
    OthersKeep(c, s, v);
    if s.Push? {
      PushMovesItsTarget(c, s);
      if Holding(c.workers[v].phase) {
        assert c.workers[v].target != c.workers[s.w].target;
      }
      hide Next, Enabled;
    } else if s.OutsidePush? {
    } else {
      OnlyPushesMove(c, s);
      hide Next, Enabled;
    }
  }

  /** A push touches one target, which is locked by its worker. */
  lemma PushMovesItsTarget(c: Cluster, s: Step)
    requires Enabled(c, s) && s.Push?
    ensures Holding(c.workers[s.w].phase)
    ensures var d := Next(c, s); var target := c.workers[s.w].target;
      d.remote.Keys == c.remote.Keys && forall t | t in c.remote && t != target :: d.remote[t] == c.remote[t]
  {
  }

  lemma OwnStep(c: Cluster, s: Step, v: nat)
    requires Enabled(c, s) && v < |c.workers| && IsBy(s, v)
    requires OwnWork(c, c.workers[v]) && SecondTryFits(c, c.workers[v])
    ensures v < |Next(c, s).workers| && SecondTryFits(Next(c, s), Next(c, s).workers[v])
  {
    hide OwnWork, SecondTryFits;
    if s.Rebase? {
      RebaseFits(c, v, s.ids);
    } else if s.Push? {
      PushFits(c, v);
    } else if s.Fetch? || s.Lock? {
      FetchFits(c, s, v);
    } else {
      NothingHeld(c, s, v);
    }
  }

  lemma NothingHeld(c: Cluster, s: Step, v: nat)
    requires Enabled(c, s) && v < |c.workers| && IsBy(s, v) && !s.Rebase? && !s.Push? && !s.Fetch? && !s.Lock?
    ensures v < |Next(c, s).workers| && SecondTryFits(Next(c, s), Next(c, s).workers[v])
  {
    hide PicksAbove, FoundOnMaster, NextSeries;
  }

  lemma FetchFits(c: Cluster, s: Step, v: nat)
    requires Enabled(c, s) && v < |c.workers| && IsBy(s, v) && (s.Fetch? || s.Lock?) && SecondTryFits(c, c.workers[v])
    ensures v < |Next(c, s).workers| && SecondTryFits(Next(c, s), Next(c, s).workers[v])
  {
  }

  lemma PushFits(c: Cluster, v: nat)
    requires Enabled(c, Push(v)) && SecondTryFits(c, c.workers[v])
    ensures v < |Next(c, Push(v)).workers| && SecondTryFits(Next(c, Push(v)), Next(c, Push(v)).workers[v])
  {
    hide Repeat;
  }

  lemma RebaseFits(c: Cluster, v: nat, ids: seq<nat>)
    requires Enabled(c, Rebase(v, ids)) && OwnWork(c, c.workers[v]) && SecondTryFits(c, c.workers[v])
    ensures v < |Next(c, Rebase(v, ids)).workers| &&
      SecondTryFits(Next(c, Rebase(v, ids)), Next(c, Rebase(v, ids)).workers[v])
  {
    hide IsCopy, Rebased, Replayed, CopiesAbove;
    var me := c.workers[v];
    RebasedKeeps(me.head, me.phase.onto, me.base, me.series, ids);
  }

  lemma StepSecondTry(c: Cluster, s: Step, v: nat)
    requires LocksHeld(c) && Enabled(c, s) && v < |c.workers|
    requires OwnWork(c, c.workers[v]) && SecondTryFits(c, c.workers[v])
    ensures v < |Next(c, s).workers| && SecondTryFits(Next(c, s), Next(c, s).workers[v])
  {
    hide Next, Enabled, LocksHeld, OwnWork;
    if IsBy(s, v) {
      OwnStep(c, s, v);
    } else {
      OthersStep(c, s, v);
    }
  }

  /** Everything of ours on these branches is in the ledger or owed to it. */
  ghost predicate Settled(owners: map<string, seq<Owner>>, c: Cluster) {
    forall t, k | t in owners && 0 <= k < |owners[t]| && owners[t][k].Ours? ::
      (owners[t][k].name, t) in c.ledger || Owed(c, owners[t][k].name, t)
  }

  lemma StillSettled(owners: map<string, seq<Owner>>, c: Cluster, d: Cluster)
    requires Settled(owners, c) && c.ledger <= d.ledger && |d.workers| == |c.workers|
    requires forall w | 0 <= w < |c.workers| && c.workers[w].phase == Owing ::
      || (d.workers[w].phase == Owing && d.workers[w].name == c.workers[w].name &&
        d.workers[w].target == c.workers[w].target)
      || (c.workers[w].name, c.workers[w].target) in d.ledger
    ensures Settled(owners, d)
  {
    forall t, k | t in owners && 0 <= k < |owners[t]| && owners[t][k].Ours?
      ensures (owners[t][k].name, t) in d.ledger || Owed(d, owners[t][k].name, t)
    {
      var name := owners[t][k].name;
      if (name, t) !in c.ledger {
        var w :| 0 <= w < |c.workers| && c.workers[w].phase == Owing && c.workers[w].name == name &&
          c.workers[w].target == t;
        assert (name, t) in d.ledger || d.workers[w].phase == Owing;
      }
    }
  }

  /** A row that is owed stays owed until it is written. */
  lemma OwedMoves(c: Cluster, s: Step, w: nat)
    requires Enabled(c, s) && w < |c.workers| && c.workers[w].phase == Owing
    ensures c.ledger <= Next(c, s).ledger && |Next(c, s).workers| == |c.workers|
    ensures var me, after := c.workers[w], Next(c, s).workers[w];
      || (after.phase == Owing && after.name == me.name && after.target == me.target)
      || (me.name, me.target) in Next(c, s).ledger
  {
    hide Rebased, PicksAbove, FoundOnMaster, NextSeries, Repeat;
    if !IsBy(s, w) {
      OthersKeep(c, s, w);
      LedgerGrows(c, s);
      hide Next, Enabled;
    }
  }

  lemma LedgerGrows(c: Cluster, s: Step)
    requires Enabled(c, s)
    ensures c.ledger <= Next(c, s).ledger && |Next(c, s).workers| == |c.workers|
  {
    hide Rebased, PicksAbove, FoundOnMaster, NextSeries, Repeat, Disturbed;
    if !s.OutsidePush? && !s.MirrorMoves? && !s.Write? {
      LocksMove(c, s);
      LedgerStays(c, s);
      hide Next, Enabled;
    }
  }

  lemma LedgerStays(c: Cluster, s: Step)
    requires Enabled(c, s) && !s.Write?
    ensures Next(c, s).ledger == c.ledger
  {
    hide PicksAbove, FoundOnMaster, NextSeries, Repeat, Disturbed;
    if Works(s) {
      WorkingStep(c, s);
      hide Next, Enabled;
    }
  }

  lemma OldOwnersSettled(c: Cluster, s: Step)
    requires Accounted(c) && Enabled(c, s)
    ensures Settled(c.owners, Next(c, s))
  {
    hide Next, Enabled;
    assert Settled(c.owners, c);
    LedgerGrows(c, s);
    forall w | 0 <= w < |c.workers| && c.workers[w].phase == Owing {
      OwedMoves(c, s, w);
    }
    StillSettled(c.owners, c, Next(c, s));
  }

  /** The commits a push or an outsider adds: who owns them. */
  lemma NewOwners(c: Cluster, s: Step, t: string, k: nat)
    requires Enabled(c, s) && t in Next(c, s).owners && k < |Next(c, s).owners[t]| && Next(c, s).owners[t][k].Ours?
    ensures
      || (t in c.owners && k < |c.owners[t]| && c.owners[t][k] == Next(c, s).owners[t][k])
      || (s.Push? && c.remote[c.workers[s.w].target] <= c.workers[s.w].head && t == c.workers[s.w].target
          && Next(c, s).owners[t][k].name == c.workers[s.w].name)
  {
    if !s.Push? && !s.OutsidePush? {
      OnlyPushesMove(c, s);
      hide Next, Enabled;
    }
  }

  lemma PushOwes(c: Cluster, s: Step)
    requires Enabled(c, s) && s.Push? && c.remote[c.workers[s.w].target] <= c.workers[s.w].head
    ensures Owed(Next(c, s), c.workers[s.w].name, c.workers[s.w].target)
  {
    assert Next(c, s).workers[s.w].phase == Owing;
  }

  lemma StepAccounted(c: Cluster, s: Step)
    requires Accounted(c) && Enabled(c, s)
    ensures Accounted(Next(c, s))
  {
    hide Next, Enabled, Accounted, Owed;
    var d := Next(c, s);
    OldOwnersSettled(c, s);
    AccountedIs(d);
    forall t, k | t in d.owners && 0 <= k < |d.owners[t]| && d.owners[t][k].Ours?
      ensures (d.owners[t][k].name, t) in d.ledger || Owed(d, d.owners[t][k].name, t)
    {
      NewOwners(c, s, t, k);
      if !(t in c.owners && k < |c.owners[t]| && c.owners[t][k] == d.owners[t][k]) {
        PushOwes(c, s);
      }
    }
  }

  lemma AccountedIs(c: Cluster)
    ensures Accounted(c) <==> Settled(c.owners, c)
  {
    hide Owed;
  }

  lemma StepInv(c: Cluster, s: Step)
    requires Inv(c) && Enabled(c, s)
    ensures Inv(Next(c, s))
  {
    hide Next, Enabled, Shape, LocksHeld, Accounted, OwnWork, SecondTryFits;
    StepShape(c, s);
    StepLocks(c, s);
    StepAccounted(c, s);
    LedgerGrows(c, s);
    forall v | 0 <= v < |c.workers|
      ensures OwnWork(Next(c, s), Next(c, s).workers[v]) && SecondTryFits(Next(c, s), Next(c, s).workers[v]) {
      StepOwnWork(c, s, v);
      StepSecondTry(c, s, v);
    }
  }

  // ------------------------------------------------------------ whole runs

  /** The states a list of steps goes through, each step enabled when it is taken. */
  ghost predicate IsRun(states: seq<Cluster>, steps: seq<Step>) {
    && |states| == |steps| + 1 && Initial(states[0])
    && forall i | 0 <= i < |steps| :: Enabled(states[i], steps[i]) && states[i + 1] == Next(states[i], steps[i])
  }

  lemma {:induction false} RunInv(states: seq<Cluster>, steps: seq<Step>, i: nat)
    requires IsRun(states, steps) && i < |states|
    ensures Inv(states[i])
  {
    if i == 0 {
      InitialInv(states[0]);
    } else {
      RunInv(states, steps, i - 1);
      StepInv(states[i - 1], steps[i - 1]);
    }
  }

  /** A target only ever grows by extension: what was pushed stays where it was pushed. */
  lemma {:induction false} RemoteOnlyGrows(states: seq<Cluster>, steps: seq<Step>, i: nat, j: nat)
    requires IsRun(states, steps) && i <= j < |states|
    ensures Grew(states[i].remote, states[j].remote)
    decreases j - i
  {
    hide Next, Enabled, Initial, Inv;
    if i < j {
      RemoteOnlyGrows(states, steps, i, j - 1);
      RunInv(states, steps, j - 1);
      InvShape(states[j - 1]);
      StepOfRun(states, steps, j - 1);
      StepGrows(states[j - 1], steps[j - 1]);
      forall t | t in states[i].remote ensures states[i].remote[t] <= states[j].remote[t] {
        assert states[i].remote[t] <= states[j - 1].remote[t];
        assert states[j - 1].remote[t] <= states[j].remote[t];
      }
    }
  }

  /** When a push goes through, the worker's whole HEAD is on the target, and stays there to the end. */
  lemma PushedCommitsStay(states: seq<Cluster>, steps: seq<Step>, i: nat, j: nat, k: nat)
    requires IsRun(states, steps) && i < |steps| && i < j < |states|
    requires steps[i].Push? && states[i + 1].workers[steps[i].w].phase == Owing
    requires k < |states[i].workers[steps[i].w].head|
    ensures
      var me := states[i].workers[steps[i].w];
      me.target in states[j].remote && k < |states[j].remote[me.target]| && states[j].remote[me.target][k] == me.head[k]
  {
    var me := states[i].workers[steps[i].w];
    assert states[i + 1] == Next(states[i], steps[i]);
    RemoteOnlyGrows(states, steps, i + 1, j);
    assert states[i + 1].remote[me.target] == me.head;
    assert states[i + 1].remote[me.target] <= states[j].remote[me.target];
  }

  /**
   Once every worker is idle, each commit of ours on the remote has its ledger row: a pair that
   was never recorded has published nothing, whatever failed along the way.
   */
  lemma PublishedIsRecorded(states: seq<Cluster>, steps: seq<Step>, i: nat, t: string, k: nat)
    requires IsRun(states, steps) && i < |states|
    requires forall w | 0 <= w < |states[i].workers| :: states[i].workers[w].phase == Idle
    requires t in states[i].owners && k < |states[i].owners[t]| && states[i].owners[t][k].Ours?
    ensures (states[i].owners[t][k].name, t) in states[i].ledger
  {
    RunInv(states, steps, i);
  }

  /** Two workers never push to the same target at the same time. */
  lemma PushesExclude(states: seq<Cluster>, steps: seq<Step>, i: nat, v: nat, w: nat)
    requires IsRun(states, steps) && i < |states| && v < |states[i].workers| && w < |states[i].workers| && v != w
    requires Holding(states[i].workers[v].phase) && Holding(states[i].workers[w].phase)
    ensures states[i].workers[v].target != states[i].workers[w].target
  {
    RunInv(states, steps, i);
  }

  /** From locking at step a up to state i: one hold of the lock, no outsider on the target, no failed fetch. */
  ghost predicate OneQuietHold(states: seq<Cluster>, steps: seq<Step>, w: nat, a: nat, i: nat)
    requires |states| == |steps| + 1
  {
    && a < i < |states| && steps[a] == Lock(w)
    && (forall j | a < j <= i :: w < |states[j].workers| && Holding(states[j].workers[w].phase))
    && forall j | a < j < i ::
      && !(steps[j].OutsidePush? && steps[j].target == states[j].workers[w].target)
      && !(steps[j].Fetch? && steps[j].w == w && !steps[j].works)
  }

  lemma CalmStays(c: Cluster, s: Step, w: nat)
    requires Enabled(c, s) && w < |c.workers| && Holding(c.workers[w].phase) && c.workers[w].calm
    requires !(s.OutsidePush? && s.target == c.workers[w].target) && !(s.Fetch? && s.w == w && !s.works)
    ensures w < |Next(c, s).workers| && Next(c, s).workers[w].calm
  {
    hide Rebased, PicksAbove, FoundOnMaster, NextSeries, Repeat;
    if !IsBy(s, w) {
      OthersCalm(c, s, w);
      hide Next, Enabled;
    }
  }

  lemma OthersCalm(c: Cluster, s: Step, w: nat)
    requires Enabled(c, s) && w < |c.workers| && !IsBy(s, w) && !(s.OutsidePush? && s.target == c.workers[w].target)
    ensures w < |Next(c, s).workers| && Next(c, s).workers[w].calm == c.workers[w].calm
  {
    if s.OutsidePush? || s.MirrorMoves? {
    } else {
      LocksMove(c, s);
      hide Next, Enabled;
    }
  }

  lemma LockIsCalm(c: Cluster, w: nat)
    requires Enabled(c, Lock(w))
    ensures Next(c, Lock(w)).workers[w].calm
  {
  }

  lemma StepOfRun(states: seq<Cluster>, steps: seq<Step>, i: nat)
    requires IsRun(states, steps) && i < |steps|
    ensures Enabled(states[i], steps[i]) && states[i + 1] == Next(states[i], steps[i])
  {
  }

  lemma {:induction false} UndisturbedIsCalm(states: seq<Cluster>, steps: seq<Step>, w: nat, a: nat, i: nat)
    requires IsRun(states, steps) && OneQuietHold(states, steps, w, a, i)
    ensures states[i].workers[w].calm
    decreases i
  {
    hide Enabled, Next, Initial;
    StepOfRun(states, steps, i - 1);
    if i > a + 1 {
      UndisturbedIsCalm(states, steps, w, a, i - 1);
      CalmStays(states[i - 1], steps[i - 1], w);
    } else {
      LockIsCalm(states[a], w);
    }
  }

  /**
   With no outside pusher on its target and a working fetch, a worker holding the target's lock
   is never rejected twice: whatever the other workers do, its second push is a fast-forward.
   */
  lemma SecondPushGoesThrough(states: seq<Cluster>, steps: seq<Step>, w: nat, a: nat, i: nat)
    requires IsRun(states, steps) && i < |steps| && steps[i] == Push(w)
    requires OneQuietHold(states, steps, w, a, i)
    ensures states[i].workers[w].phase.attempt <= 2
    ensures states[i].workers[w].phase.attempt == 2 ==> states[i + 1].workers[w].phase == Owing
  {
    UndisturbedIsCalm(states, steps, w, a, i);
    RunInv(states, steps, i);
    assert Enabled(states[i], steps[i]) && states[i + 1] == Next(states[i], steps[i]);
    assert SecondTryFits(states[i], states[i].workers[w]);
  }

  // ------------------------------------------------------------ each pair once

  /** A worker with a branch shares it with nobody, and each of its targets is still to come, at work, or over. */
  ghost predicate OwnShare(c: Cluster, me: Worker) {
    && Distinct(me.todo)
    && (me.taken ==> forall j | 0 <= j < |c.queue| :: c.queue[j].name != me.name)
    && (!me.taken ==> me.todo == [] && me.phase == Idle)
    && (AtWork(me) ==> me.target !in me.todo && (me.name, me.target) !in c.published)
    && forall t | t in me.todo :: (me.name, t) !in c.published
  }

  ghost predicate DifferentBranches(workers: seq<Worker>) {
    forall v, w | 0 <= v < w < |workers| && workers[v].taken && workers[w].taken :: workers[v].name != workers[w].name
  }

  /** Every branch is on the work list, or one worker's, or over; and no pair has been published twice. */
  ghost predicate Shares(c: Cluster) {
    && WorkList(c.queue) && DifferentBranches(c.workers)
    && (forall w | 0 <= w < |c.workers| :: OwnShare(c, c.workers[w]))
    && (forall i, j | 0 <= i < |c.published| && 0 <= j < |c.queue| :: c.published[i].0 != c.queue[j].name)
    && forall i, j | 0 <= i < j < |c.published| :: c.published[i] != c.published[j]
  }

  /** A step that takes no branch and publishes nothing. */
  lemma QuietShares(c: Cluster, d: Cluster, w: nat)
    requires Shares(c) && d.queue == c.queue && d.published == c.published && w < |c.workers| == |d.workers|
    requires d.workers == c.workers[w := d.workers[w]]
    requires var me, after := c.workers[w], d.workers[w];
      && after.name == me.name && after.taken == me.taken && OwnShare(c, after)
    ensures Shares(d)
  {
    hide WorkList;
    forall v | 0 <= v < |d.workers| ensures OwnShare(d, d.workers[v]) {
      assert OwnShare(c, c.workers[v]);
    }
  }

  lemma TakeShares(c: Cluster, w: nat)
    requires Shares(c) && Enabled(c, Take(w))
    ensures Shares(Next(c, Take(w)))
  {
    hide FoundOnMaster;
    var d, job := Next(c, Take(w)), c.queue[0];
    assert forall j | 0 <= j < |d.queue| :: d.queue[j] == c.queue[j + 1];
    forall v | 0 <= v < |c.workers| && c.workers[v].taken ensures c.workers[v].name != job.name {
      assert OwnShare(c, c.workers[v]);
    }
    forall v | 0 <= v < |d.workers| ensures OwnShare(d, d.workers[v]) {
      assert OwnShare(c, c.workers[v]);
    }
  }

  lemma PushShares(c: Cluster, w: nat)
    requires Shares(c) && Enabled(c, Push(w))
    ensures Shares(Next(c, Push(w)))
  {
    hide WorkList, Repeat;
    var d, me := Next(c, Push(w)), c.workers[w];
    assert OwnShare(c, me) && me.taken;
    if c.remote[me.target] <= me.head {
      forall v | 0 <= v < |d.workers| ensures OwnShare(d, d.workers[v]) {
        assert OwnShare(c, c.workers[v]);
      }
      forall i | 0 <= i < |c.published| ensures c.published[i] != (me.name, me.target) {
        assert c.published[i] in c.published;
      }
    } else {
      QuietShares(c, d, w);
    }
  }

  lemma OthersShare(c: Cluster, s: Step)
    requires Shares(c) && Enabled(c, s) && !s.Take? && !s.Push?
    ensures Shares(Next(c, s))
  {
    if s.OutsidePush? || s.MirrorMoves? {
      OutsideShares(c, s);
    } else {
      LocksMove(c, s);
      ShareStays(c, s);
      hide Next, Enabled, Shares, OwnShare;
      QuietShares(c, Next(c, s), s.w);
    }
  }

  lemma OutsideShares(c: Cluster, s: Step)
    requires Shares(c) && Enabled(c, s) && (s.OutsidePush? || s.MirrorMoves?)
    ensures Shares(Next(c, s))
  {
    hide WorkList;
    var d := Next(c, s);
    forall v | 0 <= v < |d.workers| ensures OwnShare(d, d.workers[v]) {
      assert OwnShare(c, c.workers[v]);
    }
  }

  lemma ShareStays(c: Cluster, s: Step)
    requires Shares(c) && Enabled(c, s) && !s.Take? && !s.Push? && !s.OutsidePush? && !s.MirrorMoves?
    ensures s.w < |c.workers| && s.w < |Next(c, s).workers|
    ensures Next(c, s).queue == c.queue && Next(c, s).published == c.published
    ensures var me, after := c.workers[s.w], Next(c, s).workers[s.w];
      after.name == me.name && after.taken == me.taken && OwnShare(c, after)
  {
    hide PicksAbove, NextSeries;
    SharesOwn(c, s.w);
    hide Shares;
    if Works(s) {
      WorkingStep(c, s);
      hide Next, Enabled;
    }
  }

  lemma SharesOwn(c: Cluster, w: nat)
    requires Shares(c)
    ensures w < |c.workers| ==> OwnShare(c, c.workers[w])
  {
  }

  lemma StepShares(c: Cluster, s: Step)
    requires Shares(c) && Enabled(c, s)
    ensures Shares(Next(c, s))
  {
    hide Next, Enabled, Shares;
    match s
    case Take(w) => TakeShares(c, w);
    case Push(w) => PushShares(c, w);
    case _ => OthersShare(c, s);
  }

  lemma InitialShares(c: Cluster)
    requires Initial(c)
    ensures Shares(c)
  {
  }

  /** Over every interleaving of the workers, no branch is published to the same target twice. */
  lemma {:induction false} NoPairTwice(states: seq<Cluster>, steps: seq<Step>, i: nat)
    requires IsRun(states, steps) && i < |states|
    ensures Shares(states[i])
    ensures forall p, q | 0 <= p < q < |states[i].published| :: states[i].published[p] != states[i].published[q]
    decreases i
  {
    hide Next, Enabled, Initial, Shares;
    StartOfRun(states, steps);
    if i == 0 {
      InitialShares(states[0]);
    } else {
      NoPairTwice(states, steps, i - 1);
      StepOfRun(states, steps, i - 1);
      StepShares(states[i - 1], steps[i - 1]);
    }
    SharesMeansOnce(states[i]);
  }

  lemma StartOfRun(states: seq<Cluster>, steps: seq<Step>)
    requires IsRun(states, steps)
    ensures Initial(states[0])
  {
  }

  lemma SharesMeansOnce(c: Cluster)
    requires Shares(c)
    ensures forall p, q | 0 <= p < q < |c.published| :: c.published[p] != c.published[q]
  {
  }

  // ------------------------------------------------------------ the trailers

  /** The sha is on the push remote's master, or the ledger remembers it as this branch's master commit. */
  ghost predicate Public(c: Cluster, name: string, id: nat) {
    ("master" in c.remote && Holds(c.remote["master"], id)) || (name in c.remembered && c.remembered[name].id == id)
  }

  ghost predicate AllPublic(c: Cluster, name: string, series: History) {
    forall x | x in series :: Public(c, name, x.id)
  }

  /** What a worker takes for landed on master is public; and what it has pushed is on its target. */
  ghost predicate KnowsMaster(c: Cluster, me: Worker) {
    && AllPublic(c, me.name, me.onMaster)
    && (me.phase == Owing ==> me.target in c.remote && me.head <= c.remote[me.target])
  }

  ghost predicate TrailersPublic(c: Cluster) {
    && (forall p | p in c.trailers :: Public(c, p.0, p.1))
    && forall w | 0 <= w < |c.workers| :: KnowsMaster(c, c.workers[w])
  }

  lemma StaysPublicHere(c: Cluster, d: Cluster, name: string, id: nat)
    requires Public(c, name, id) && Grew(c.remote, d.remote) && d.remembered == c.remembered
    ensures Public(d, name, id)
  {
    if "master" in c.remote && Holds(c.remote["master"], id) {
      var k :| 0 <= k < |c.remote["master"]| && c.remote["master"][k].id == id;
      assert c.remote["master"] <= d.remote["master"];
      assert d.remote["master"][k].id == id;
    }
  }

  lemma StaysKnown(c: Cluster, d: Cluster, me: Worker, after: Worker)
    requires KnowsMaster(c, me) && Grew(c.remote, d.remote) && d.remembered == c.remembered
    requires after.name == me.name && after.onMaster == me.onMaster
    requires after.phase == Owing ==> me.phase == Owing && after.target == me.target && after.head == me.head
    ensures KnowsMaster(d, after)
  {
    hide Public;
    forall x | x in me.onMaster ensures Public(d, me.name, x.id) {
      StaysPublicHere(c, d, me.name, x.id);
    }
    if me.phase == Owing && me.target in c.remote {
      assert c.remote[me.target] <= d.remote[me.target];
    }
  }

  /** What is found on master is in what the mirror shows of it, or remembered. */
  lemma FoundIsPublic(c: Cluster, job: Job)
    requires Shape(c)
    ensures AllPublic(c, job.name, FoundOnMaster(c, job))
  {
    hide IsSpecificSubject, Contains, NotOnMaster, Counterpart;
    var remembered := if job.name in c.remembered then Some(c.remembered[job.name]) else None;
    var span := Span(job.base, MasterSeen(c));
    var found := FoundOnMaster(c, job);
    forall x | x in found ensures Public(c, job.name, x.id) {
      var i :| 0 <= i < |found| && found[i] == x;
      assert IsOnMaster(x, job.commits[i], remembered, span);
      if remembered != Some(x) {
        var k :| 0 <= k < |MasterSeen(c)| && MasterSeen(c)[k] == x;
        assert c.remote["master"][k].id == x.id;
      }
    }
  }

  lemma NextSeriesPublic(c: Cluster, me: Worker)
    requires KnowsMaster(c, me) && me.onMaster != []
    ensures AllPublic(c, me.name, NextSeries(me))
  {
    hide Public;
    forall x | x in NextSeries(me) ensures x in me.onMaster {
    }
  }

  /** What was pushed to master is on it from then on. */
  lemma LandedIsPublic(c: Cluster, me: Worker, landed: History)
    requires KnowsMaster(c, me) && me.phase == Owing && me.target == "master" && forall x | x in landed :: x in me.head
    ensures AllPublic(c, me.name, landed)
  {
    forall x | x in landed ensures Public(c, me.name, x.id) {
      var k :| 0 <= k < |me.head| && me.head[k] == x;
      assert c.remote["master"][k].id == x.id;
    }
  }

  /** What a step makes of the worker that takes it. */
  lemma OwnStepKnows(c: Cluster, s: Step)
    requires Shape(c) && TrailersPublic(c) && Enabled(c, s) && !s.OutsidePush? && !s.MirrorMoves?
    requires Grew(c.remote, Next(c, s).remote)
    ensures s.w < |Next(c, s).workers| && KnowsMaster(Next(c, s), Next(c, s).workers[s.w])
  {
    KnowsOwn(c, s.w);
    hide TrailersPublic, KnowsMaster, Grew;
    if Works(s) {
      WorkingStep(c, s);
      hide Next, Enabled;
      StaysKnown(c, Next(c, s), c.workers[s.w], Next(c, s).workers[s.w]);
    } else if s.Take? {
      TakeKnows(c, s.w);
    } else if s.Write? {
      WriteKnows(c, s.w, s.landed);
    } else if s.Push? {
      PushKnows(c, s.w);
    } else {
      TurnKnows(c, s);
    }
  }

  lemma KnowsOwn(c: Cluster, w: nat)
    requires TrailersPublic(c)
    ensures w < |c.workers| ==> KnowsMaster(c, c.workers[w])
  {
  }

  lemma TakeKnows(c: Cluster, w: nat)
    requires Shape(c) && Enabled(c, Take(w))
    ensures KnowsMaster(Next(c, Take(w)), Next(c, Take(w)).workers[w])
  {
    hide FoundOnMaster, Public, Shape;
    FoundIsPublic(c, c.queue[0]);
    TakesKnown(c, Next(c, Take(w)), Next(c, Take(w)).workers[w]);
  }

  lemma WriteKnows(c: Cluster, w: nat, landed: History)
    requires Enabled(c, Write(w, landed)) && KnowsMaster(c, c.workers[w])
    ensures KnowsMaster(Next(c, Write(w, landed)), Next(c, Write(w, landed)).workers[w])
  {
    hide Public;
    var me := c.workers[w];
    if me.target == "master" {
      LandedIsPublic(c, me, landed);
    }
    TakesKnown(c, Next(c, Write(w, landed)), Next(c, Write(w, landed)).workers[w]);
  }

  lemma PushKnows(c: Cluster, w: nat)
    requires Enabled(c, Push(w)) && KnowsMaster(c, c.workers[w]) && Grew(c.remote, Next(c, Push(w)).remote)
    ensures KnowsMaster(Next(c, Push(w)), Next(c, Push(w)).workers[w])
  {
    hide Public, Repeat, Grew;
    var me, d := c.workers[w], Next(c, Push(w));
    StaysKnown(c, d, me, d.workers[w].(phase := Idle));
  }

  lemma TurnKnows(c: Cluster, s: Step)
    requires Enabled(c, s) && (s.Skip? || s.Start?) && KnowsMaster(c, c.workers[s.w])
    ensures KnowsMaster(Next(c, s), Next(c, s).workers[s.w])
  {
    hide Public, PicksAbove, NextSeries;
    TakesKnown(c, Next(c, s), Next(c, s).workers[s.w]);
  }

  lemma TakesKnown(c: Cluster, d: Cluster, me: Worker)
    requires AllPublic(c, me.name, me.onMaster) && me.phase != Owing && d.remote == c.remote &&
      d.remembered == c.remembered
    ensures KnowsMaster(d, me)
  {
  }

  lemma NewTrailers(c: Cluster, s: Step, p: (string, nat))
    requires TrailersPublic(c) && Enabled(c, s) && p in Next(c, s).trailers && p !in c.trailers
    ensures Public(c, p.0, p.1)
  {
    hide Repeat, PicksAbove, FoundOnMaster, NextSeries, Public;
    if Works(s) {
      WorkingStep(c, s);
      hide Next, Enabled;
    } else if s.Start? {
      var me := c.workers[s.w];
      KnowsOwn(c, s.w);
      if me.onMaster != [] {
        NextSeriesPublic(c, me);
      }
    }
  }

  lemma StepTrailers(c: Cluster, s: Step)
    requires Shape(c) && TrailersPublic(c) && Enabled(c, s)
    ensures TrailersPublic(Next(c, s))
  {
    hide Next, Enabled, Shape, Public, KnowsMaster, Grew;
    StepGrows(c, s);
    MemoryStays(c, s);
    var d := Next(c, s);
    forall p | p in d.trailers ensures Public(d, p.0, p.1) {
      if p !in c.trailers {
        NewTrailers(c, s, p);
      }
      StaysPublicHere(c, d, p.0, p.1);
    }
    forall v | 0 <= v < |d.workers| ensures KnowsMaster(d, d.workers[v]) {
      assert KnowsMaster(c, c.workers[v]);
      if IsBy(s, v) {
        OwnStepKnows(c, s);
      } else {
        OthersKeep(c, s, v);
        StaysKnown(c, d, c.workers[v], d.workers[v]);
      }
    }
  }

  lemma MemoryStays(c: Cluster, s: Step)
    requires Enabled(c, s)
    ensures Next(c, s).remembered == c.remembered && |Next(c, s).workers| == |c.workers|
  {
    hide Repeat, PicksAbove, FoundOnMaster, NextSeries, Disturbed;
    if Works(s) {
      WorkingStep(c, s);
      LocksMove(c, s);
      hide Next, Enabled;
    }
  }

  lemma InitialTrailers(c: Cluster)
    requires Initial(c)
    ensures TrailersPublic(c)
  {
  }

  /** Over every interleaving, each sha a worker writes into an -x trailer is on master, or remembered for it. */
  lemma {:induction false} TrailersArePublic(states: seq<Cluster>, steps: seq<Step>, i: nat)
    requires IsRun(states, steps) && i < |states|
    ensures TrailersPublic(states[i])
    ensures forall p | p in states[i].trailers :: Public(states[i], p.0, p.1)
    decreases i
  {
    hide Next, Enabled, Initial, Inv, Public, KnowsMaster;
    StartOfRun(states, steps);
    if i == 0 {
      InitialTrailers(states[0]);
    } else {
      TrailersArePublic(states, steps, i - 1);
      RunInv(states, steps, i - 1);
      InvShape(states[i - 1]);
      StepOfRun(states, steps, i - 1);
      StepTrailers(states[i - 1], steps[i - 1]);
    }
  }

  lemma InvShape(c: Cluster)
    requires Inv(c)
    ensures Shape(c)
  {
  }
}
