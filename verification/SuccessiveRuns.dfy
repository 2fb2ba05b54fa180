/** Runs of the backporter one after another, sharing the ledger file. */
module SuccessiveRuns {
  import opened Wrappers
  import opened Routing
  import opened Repository
  import opened Planning
  import opened BatchState
  import opened Surveying
  import opened Backporting

  /** What one run is given: options, a branch list, and how long it may wait. */
  datatype Job = Job(cfg: Config, lines: seq<string>, rounds: nat)

  ghost predicate Pushes(pushed: seq<Publication>, rows: seq<Row>) {
    |pushed| == |rows| && forall i | 0 <= i < |rows| ::
      pushed[i].name == rows[i].branch && pushed[i].target == rows[i].target
  }

  lemma MorePushes(pushed: seq<Publication>, rows: seq<Row>, more: seq<Publication>, added: seq<Row>)
    requires Pushes(pushed, rows) && Pushes(more, added)
    ensures Pushes(pushed + more, rows + added)
  {
  }

  /** The rows are of different pairs, none of them in `taken`. */
  ghost predicate NewPairs(rows: seq<Row>, taken: set<(string, string)>) {
    NoRepeats(rows) && MergedPairs(rows) !! taken
  }

  lemma MoreNewPairs(rows: seq<Row>, added: seq<Row>, before: seq<Row>)
    requires NewPairs(rows, MergedPairs(before)) && NewPairs(added, MergedPairs(before + rows))
    ensures NewPairs(rows + added, MergedPairs(before))
  {
    assert MergedPairs(rows + added) == MergedPairs(rows) + MergedPairs(added);
    assert MergedPairs(before + rows) == MergedPairs(before) + MergedPairs(rows);
    forall i, j | 0 <= i < |rows| && 0 <= j < |added| ensures Pair(rows[i]) != Pair(added[j]) {
      assert rows[i] in rows && added[j] in added;
      assert Pair(rows[i]) in MergedPairs(rows) && Pair(added[j]) in MergedPairs(added);
    }
  }

  /**
   Any number of runs that heed the ledger, whatever it held before: every push of every run has
   its own row, no branch is pushed to the same target twice, and none to one the ledger had.
   */
  method RunAll(jobs: seq<Job>, rows: seq<Row>) returns (ledger: seq<Row>, ghost pushed: seq<Publication>)
    requires forall j | j in jobs :: !j.cfg.ignoreLedger && (j.cfg.dryRun ==> !j.cfg.doPush && !j.cfg.doCompile)
    ensures rows <= ledger && NewPairs(ledger[|rows|..], MergedPairs(rows))
    ensures Pushes(pushed, ledger[|rows|..])
  {
    hide NewPairs;
    ledger, pushed := rows, [];
    NoPairsYet(rows);
    for i := 0 to |jobs|
      invariant rows <= ledger && NewPairs(ledger[|rows|..], MergedPairs(rows))
      invariant Pushes(pushed, ledger[|rows|..])
    {
      ghost var more, before := [], ledger;
      assert jobs[i] in jobs;
      ledger, more := RunOne(jobs[i], ledger);
      MorePushes(pushed, before[|rows|..], more, ledger[|before|..]);
      assert before == rows + before[|rows|..];
      MoreNewPairs(before[|rows|..], ledger[|before|..], rows);
      assert ledger[|rows|..] == before[|rows|..] + ledger[|before|..];
      pushed := pushed + more;
    }
  }

  lemma NoPairsYet(rows: seq<Row>)
    ensures NewPairs(rows[|rows|..], MergedPairs(rows))
  {
  }

  /** One run, on whatever the remotes look like by then. */
  method RunOne(job: Job, rows: seq<Row>) returns (ledger: seq<Row>, ghost pushed: seq<Publication>)
    requires !job.cfg.ignoreLedger && (job.cfg.dryRun ==> !job.cfg.doPush && !job.cfg.doCompile)
    ensures rows <= ledger && NewPairs(ledger[|rows|..], MergedPairs(rows))
    ensures Pushes(pushed, ledger[|rows|..])
  {
    hide RightlyExecuted, SameWork, Noted, NameBag, BatchStep, Sound, NewRows, Listed, NoRepeats, MergedPairs,
      Pushes, NewPairs, Surveyed;
    var remote: Remote, tips: map<string, History>, fork: map<string, History>, local: map<string, History> := *, *,
      *, *;
    var other: map<string, History>, objects: map<nat, Commit> := *, *;
    var held: set<string>, signatures: Signatures, approvals: set<(string, nat)>, heads: set<(string, History)> := *,
      *, *, *;
    var refs := Refs(map[], fork, local, other, map id | id in objects :: objects[id].(id := id));
    var run := new Backporter(job.cfg, false, refs, remote, tips, rows, held, signatures, approvals, heads);
    var entries := ParseBranchFile(job.lines);
    ListedMeaning(job.lines);
    ghost var before := run.W();
    var left, done, _, _, _, _, _ := run.Run(entries, job.rounds);
    ledger, pushed := run.ledger, run.published;
    RowsOfRun(run.cfg, run.startRows, rows, before, run.W(), done);
  }

  lemma RowsOfRun(cfg: Config, startRows: seq<Row>, rows: seq<Row>, before: State, after: State, done: seq<Item>)
    requires BatchStep(cfg, startRows, before, after, done) && before.published == [] && before.ledger == rows
    requires NoRepeats(NewRows(before, after)) && MergedPairs(NewRows(before, after)) !! MergedPairs(rows)
    ensures rows <= after.ledger && NewPairs(after.ledger[|rows|..], MergedPairs(rows))
    ensures Pushes(after.published, after.ledger[|rows|..])
  {
    assert NewRows(before, after) == after.ledger[|rows|..];
  }
}
