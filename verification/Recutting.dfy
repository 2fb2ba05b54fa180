/**
 When the last look executes what was approved: refresh_rewrites() plans a branch again whose
 rewrite moved, and nobody is asked about the new head.
 */
module Recutting {
  import opened Wrappers
  import opened Routing
  import opened Repository
  import opened Planning
  import opened BatchState

  ghost predicate Proper(helpers: Helpers, strip: seq<string>) {
    helpers.made.Some? ==> ProperNames(helpers.made.value, strip)
  }

  /** Whatever the helper scripts leave behind, what is looked at again is what was planned and approved. */
  ghost predicate KeepsApproved(cfg: Config, refs: Refs, x: Setting, work: seq<Item>) {
    forall helpers | Proper(helpers, cfg.strip) :: SameWork(Refreshed(cfg, refs, x, work, helpers).0, work)
  }

  /** The helper scripts can leave a rewrite of this branch that moved. */
  ghost predicate IsRewrite(cfg: Config, it: Item, local: map<string, History>, rewrite: string) {
    && rewrite in local && Logical(rewrite, cfg.strip) == Logical(it.src.name, cfg.strip)
    && (rewrite, local[rewrite]) != (it.src.pickName, it.src.head)
  }

  /** A rewrite is found by the logical name it was cut for, and a later one of the same name replaces it. */
  lemma {:induction false} RewriteIsFound(names: seq<string>, strip: seq<string>, stem: string)
    ensures stem !in SquashOutput(names, strip) ==> forall n | n in names :: Logical(n, strip) != stem
    ensures stem in SquashOutput(names, strip) ==> exists i | 0 <= i < |names| ::
      && names[i] == SquashOutput(names, strip)[stem] && Logical(names[i], strip) == stem
      && forall j | i < j < |names| :: Logical(names[j], strip) != stem
    decreases |names|
  {
    hide Logical;
    if names != [] {
      var n := |names| - 1;
      RewriteIsFound(names[..n], strip, stem);
      assert names == names[..n] + [names[n]];
      assert forall i | 0 <= i < n :: names[..n][i] == names[i];
    }
  }

  /**
   A branch is kept as it was approved exactly when no rewrite was cut for it, the one cut is not
   here, or it is the very one picked from already; otherwise what plan() says of the new one counts.
   */
  lemma RecutExactlyWhen(cfg: Config, refs: Refs, x: Setting, made: map<string, string>, it: Item)
    requires ProperNames(made, cfg.strip)
    ensures
      var stem := Logical(it.src.name, cfg.strip);
      && (RecutOf(cfg, refs, x, made, it) == Some(it) <==>
            || !(stem in made && IsRewrite(cfg, it, refs.local, made[stem]))
            || PlanOf(cfg, refs, x, it.src.(pickName := made[stem], head := refs.local[made[stem]])) == Some(it))
      && (stem in made && IsRewrite(cfg, it, refs.local, made[stem]) ==>
            RecutOf(cfg, refs, x, made, it) ==
              PlanOf(cfg, refs, x, it.src.(pickName := made[stem], head := refs.local[made[stem]])))
  {
    hide PlanOf, Logical;
  }

  /** Some rewrite of this branch would be planned. */
  ghost predicate Replannable(cfg: Config, refs: Refs, x: Setting, it: Item) {
    exists local, rewrite | IsRewrite(cfg, it, local, rewrite) ::
      PlanOf(cfg, refs.(local := local), x, it.src.(pickName := rewrite, head := local[rewrite])).Some?
  }

  lemma PlanKeepsSource(cfg: Config, refs: Refs, x: Setting, src: Source)
    ensures var p := PlanOf(cfg, refs, x, src);
      p.Some? ==> p.value.src.name == src.name && p.value.src.pickName == src.pickName && p.value.src.head == src.head
  {
    hide PlanFrom;
  }

  /** Everything on the new list was kept, or planned again from a rewrite that moved. */
  lemma {:induction false} RecutAre(cfg: Config, refs: Refs, x: Setting, made: map<string, string>, work: seq<Item>)
    ensures forall n | n in RecutAllOf(cfg, refs, x, made, work).0 ::
      exists it | it in work :: RecutOf(cfg, refs, x, made, it) == Some(n)
    ensures forall it | it in work && RecutOf(cfg, refs, x, made, it).Some? ::
      RecutOf(cfg, refs, x, made, it).value in RecutAllOf(cfg, refs, x, made, work).0
    decreases |work|
  {
    hide RecutOf;
    if work != [] {
      var n := |work| - 1;
      RecutAre(cfg, refs, x, made, work[..n]);
      assert work == work[..n] + [work[n]];
    }
  }

  lemma NoneReplannable(cfg: Config, refs: Refs, x: Setting, work: seq<Item>, helpers: Helpers)
    requires Proper(helpers, cfg.strip) && forall it | it in work :: !Replannable(cfg, refs, x, it)
    ensures SameWork(Refreshed(cfg, refs, x, work, helpers).0, work)
  {
    hide PlanOf, Replannable, RecutOf, RecutAllOf, SameWork, ProperNames;
    PartIsSameWork(work, work);
    if helpers.made.Some? {
      var made, now := helpers.made.value, refs.(local := helpers.local);
      RecutAre(cfg, now, x, made, work);
      forall n | n in RecutAllOf(cfg, now, x, made, work).0 ensures n in work {
        var it :| it in work && RecutOf(cfg, now, x, made, it) == Some(n);
        KeptOrReplannable(cfg, refs, x, it, helpers);
      }
      PartIsSameWork(RecutAllOf(cfg, now, x, made, work).0, work);
    }
  }

  lemma KeptOrReplannable(cfg: Config, refs: Refs, x: Setting, it: Item, helpers: Helpers)
    requires helpers.made.Some? && ProperNames(helpers.made.value, cfg.strip)
    ensures var now := RecutOf(cfg, refs.(local := helpers.local), x, helpers.made.value, it);
      now.Some? ==> now.value == it || Replannable(cfg, refs, x, it)
  {
    hide PlanOf, Logical;
    var made := helpers.made.value;
    var moved := MovedTo(cfg, refs.(local := helpers.local), made, it.src);
    if moved.Some? {
      var rewrite := made[Logical(it.src.name, cfg.strip)];
      assert IsRewrite(cfg, it, helpers.local, rewrite);
    }
  }

  lemma ReplannedDiffers(cfg: Config, refs: Refs, x: Setting, work: seq<Item>, it: Item)
    requires !LeavesRewrites(cfg) && Distinct(ItemNames(work)) && it in work && Replannable(cfg, refs, x, it)
    ensures !KeepsApproved(cfg, refs, x, work)
  {
    hide PlanOf, Logical, SameWork;
    var local, rewrite :| IsRewrite(cfg, it, local, rewrite) &&
      PlanOf(cfg, refs.(local := local), x, it.src.(pickName := rewrite, head := local[rewrite])).Some?;
    var made := map[Logical(it.src.name, cfg.strip) := rewrite];
    var helpers, now := Helpers(local, Some(made)), refs.(local := local);
    assert MovedTo(cfg, now, made, it.src) == Some(it.src.(pickName := rewrite, head := local[rewrite]));
    var n := RecutOf(cfg, now, x, made, it).value;
    PlanKeepsSource(cfg, now, x, it.src.(pickName := rewrite, head := local[rewrite]));
    RecutAre(cfg, now, x, made, work);
    var again := Refreshed(cfg, refs, x, work, helpers).0;
    assert n in again;
    NotSameWork(again, work, it, n);
    assert Proper(helpers, cfg.strip);
  }

  lemma NotSameWork(again: seq<Item>, work: seq<Item>, it: Item, n: Item)
    requires Distinct(ItemNames(work)) && it in work && n in again && n.src.name == it.src.name
    requires (n.src.pickName, n.src.head) != (it.src.pickName, it.src.head)
    ensures !SameWork(again, work)
  {
    forall f | f in work && f.src.name == n.src.name ensures f == it {
      var i :| 0 <= i < |work| && work[i] == f;
      var j :| 0 <= j < |work| && work[j] == it;
      assert ItemNames(work)[i] == ItemNames(work)[j];
    }
  }

  /**
   The exact condition on one list: whatever the helper scripts answer, the branches looked at
   again are the ones approved iff the rewrites are left alone, or no rewrite of any of them could
   be planned.
   */
  lemma ApprovedKeptExactlyWhen(cfg: Config, refs: Refs, x: Setting, work: seq<Item>)
    requires Distinct(ItemNames(work))
    ensures KeepsApproved(cfg, refs, x, work) <==> LeavesRewrites(cfg) || forall it | it in work ::
      !Replannable(cfg, refs, x, it)
  {
    hide Replannable, SameWork, Refreshed;
    if LeavesRewrites(cfg) {
      forall helpers | Proper(helpers, cfg.strip) ensures SameWork(Refreshed(cfg, refs, x, work, helpers).0, work) {
        var again, dropped := Refreshed(cfg, refs, x, work, helpers).0, Refreshed(cfg, refs, x, work, helpers).1;
        NoneMoved(cfg, refs, x, work, again, dropped, helpers);
        PartIsSameWork(work, work);
      }
    } else if it :| it in work && Replannable(cfg, refs, x, it) {
      ReplannedDiffers(cfg, refs, x, work, it);
    } else {
      forall helpers | Proper(helpers, cfg.strip) ensures SameWork(Refreshed(cfg, refs, x, work, helpers).0, work) {
        NoneReplannable(cfg, refs, x, work, helpers);
      }
    }
  }

  // ------------------------------------------------------------ one red branch

  function Cut(id: nat): History { [Commit(0, None, "root", "root", {}), Commit(id, None, "cut", "cut", {})] }

  function Master(): History { [Commit(0, None, "root", "root", {})] }

  /** "b", cut from master at the root, red on the fork, and picked from its local cut 1. */
  function RedBranch(): Item {
    Item(Source("b", None, "b", Cut(1), "b", Cut(1), false, false, Master(), "master", Cut(1)[1..]), ["master"])
  }

  /** The same, its rewrite cut again as commit 2. */
  function MovedBranch(): Item {
    var it := RedBranch();
    it.(src := it.src.(head := Cut(2), commits := Cut(2)[1..]))
  }

  function RefsWith(local: History): Refs {
    Refs(map["master" := Master()], map["b" := Cut(1)], map["b" := local], map[], map[])
  }

  function Nothing(): Setting { Setting([], {}, [], ["master"]) }

  lemma BaseOfCut(cfg: Config, refs: Refs, src: Source, id: nat)
    requires refs.upstream == map["master" := Master()] && src.explicitBase == None && src.head == Cut(id) && id != 0
    ensures BaseFor(cfg, refs, src) == CutFrom(Master(), "master")
  {
    var up, head := refs.upstream, Cut(id);
    assert Shared(Master(), head) == 1 by {
      assert Master()[1..] == [] && Master()[0] == head[0];
      assert Shared(Master()[1..], head[1..]) == 0;
    }
    assert head[..1] == Master();
    var candidates := Candidates(cfg);
    assert candidates[0] == "master";
    assert Related(up, head, "master") && Distance(up, head, "master") == 1;
    assert IsBaseOf(cfg, refs, src, CutFrom(Master(), "master"));
    BaseUnique(cfg, refs, src, BaseFor(cfg, refs, src), CutFrom(Master(), "master"));
  }

  lemma PlainGoesEverywhere(cfg: Config)
    ensures TargetsFor("b", "master", ["master"], cfg.strip) == ["master"]
    ensures Uncovered(["master"], CoverageFor("b", ["master"], [], cfg.strip)) == ["master"]
  {
    NothingOffOneChar('b', cfg.strip);
    assert ['b'] == "b";
    assert "b"[0..] == "b" && "b"[1..] == "";
    assert PinAt("b") == None && PinAt("") == None;
    assert PinStart("b", 0) == 1;
  }

  lemma CutHasNotLanded(refs: Refs, src: Source, id: nat)
    requires refs.upstream == map["master" := Master()] && src.base == Master() && src.head == Cut(id) && id != 0
    ensures !Landing(refs, [], src, "master").Skip?
  {
    hide Spellings, HasTwin, HasSameTwin;
    var series := Series(Master(), Cut(id));
    var c := Cut(id)[1];
    assert Cut(id)[..1] == Master() && series == [c];
    assert Master()[0] in Master() && Cut(id)[0].id == 0;
    assert !Holds(Master(), id);
    assert c in Unheld(Master(), series);
    assert Holds(Cut(id), 0);
    assert !MarkedThere(Master(), Cut(id), c);
    assert Span(Master(), Master()) == [] by {
      assert Holds(Master(), 0);
      assert Master()[1..] == [];
    }
    NoTwins(c);
    assert c in series;
  }

  lemma NoTwins(c: Commit)
    ensures !HasTwin([], c) && !HasSameTwin([], c)
  {
  }

  /** Planned from either cut, the branch goes to master. */
  lemma CutIsPlanned(cfg: Config, refs: Refs, src: Source, id: nat)
    requires refs.upstream == map["master" := Master()] && src.name == "b" && src.explicitBase == None &&
      src.head == Cut(id) && id != 0
    requires cfg.maxCommits > 0
    ensures PlanOf(cfg, refs, Nothing(), src) ==
      Some(Item(src.(base := Master(), baseBranch := "master", commits := Cut(id)[1..]), ["master"]))
  {
    hide Landing, TargetsFor, CoverageFor, Uncovered, BaseFor;
    BaseOfCut(cfg, refs, src, id);
    PlainGoesEverywhere(cfg);
    var s := WithBase(src, CutFrom(Master(), "master"));
    assert Cut(id)[..1] == Master() && Series(Master(), Cut(id)) == Cut(id)[1..];
    CutHasNotLanded(refs, s, id);
    assert Unmerged(["master"], "b", {}) == ["master"] by { assert ["master"][1..] == []; }
    assert NotLanded(refs, [], s, ["master"]) == ["master"] by { assert ["master"][1..] == []; }
  }

  /**
   A red branch whose local rewrite moved while its fork head did not: unless the rewrites are left
   alone the last look finds CI green for the fork head, and executes a head nobody approved.
   */
  lemma RecutIsExecutedUnapproved(cfg: Config)
    requires !LeavesRewrites(cfg) && cfg.maxCommits > 0
    ensures
      var helpers := Helpers(map["b" := Cut(2)], Some(map["b" := "b"]));
      && Proper(helpers, cfg.strip)
      && PlanOf(cfg, RefsWith(Cut(1)), Nothing(), RedBranch().src) == Some(RedBranch())
      && Refreshed(cfg, RefsWith(Cut(1)), Nothing(), [RedBranch()], helpers) == ([MovedBranch()], [])
      && LookedAt(cfg, RefsWith(Cut(2)), map[], Look([], [], [], []), MovedBranch(), Passing).0.ready ==
        [GreenNow(map[], MovedBranch())]
      && GreenNow(map[], MovedBranch()).src.head != RedBranch().src.head
      && !SameWork([MovedBranch()], [RedBranch()])
  {
    hide PlanOf;
    NothingOffOneChar('b', cfg.strip);
    assert ['b'] == "b";
    var helpers := Helpers(map["b" := Cut(2)], Some(map["b" := "b"]));
    var it, made := RedBranch(), map["b" := "b"];
    CutIsPlanned(cfg, RefsWith(Cut(1)), it.src, 1);
    CutIsPlanned(cfg, RefsWith(Cut(2)), it.src.(head := Cut(2)), 2);
    assert Cut(1)[1].id != Cut(2)[1].id;
    assert MovedTo(cfg, RefsWith(Cut(2)), made, it.src) == Some(it.src.(head := Cut(2)));
    assert [it][..0] == [];
    assert RecutAllOf(cfg, RefsWith(Cut(2)), Nothing(), made, []) == ([], []);
    assert RecutOf(cfg, RefsWith(Cut(2)), Nothing(), made, it) == Some(MovedBranch());
    assert [] + [MovedBranch()] == [MovedBranch()];
    assert RecutAllOf(cfg, RefsWith(Cut(2)), Nothing(), made, [it]) == ([MovedBranch()], []);
    assert MovedBranch() in [MovedBranch()] && it in [it];
  }

  lemma RedIsReplannable(cfg: Config)
    requires cfg.maxCommits > 0
    ensures Replannable(cfg, RefsWith(Cut(1)), Nothing(), RedBranch())
  {
    hide PlanOf;
    var local, it := map["b" := Cut(2)], RedBranch();
    assert Cut(1)[1].id != Cut(2)[1].id;
    assert IsRewrite(cfg, it, local, "b");
    CutIsPlanned(cfg, RefsWith(Cut(2)), it.src.(head := Cut(2)), 2);
    assert RefsWith(Cut(1)).(local := local) == RefsWith(Cut(2));
  }

  lemma NothingIsPlannable(cfg: Config, refs: Refs, x: Setting, src: Source)
    requires cfg.maxCommits == 0
    ensures PlanOf(cfg, refs, x, src) == None
  {
    hide BaseFor;
  }

  ghost predicate AlwaysKeepsApproved(cfg: Config) {
    forall refs, x, work | Distinct(ItemNames(work)) :: KeepsApproved(cfg, refs, x, work)
  }

  /**
   The exact condition on the options: approved work is kept whatever the repository, the list and
   the helper scripts, iff the rewrites are left alone or --max-commits plans nothing at all.
   */
  lemma AlwaysKeptExactlyWhen(cfg: Config)
    ensures AlwaysKeepsApproved(cfg) <==> LeavesRewrites(cfg) || cfg.maxCommits == 0
  {
    hide KeepsApproved, PlanOf;
    if LeavesRewrites(cfg) || cfg.maxCommits == 0 {
      forall refs, x, work | Distinct(ItemNames(work)) ensures KeepsApproved(cfg, refs, x, work) {
        ApprovedKeptExactlyWhen(cfg, refs, x, work);
        if cfg.maxCommits == 0 {
          forall refs', src {
            NothingIsPlannable(cfg, refs', x, src);
          }
        }
      }
    } else {
      var work := [RedBranch()];
      assert Distinct(ItemNames(work)) && work[0] in work;
      RedIsReplannable(cfg);
      ApprovedKeptExactlyWhen(cfg, RefsWith(Cut(1)), Nothing(), work);
    }
  }
}
