/**
 What a run makes of its branch list before anything is merged: which of the listed
 branches are planned, and what is recorded about every other one.
 */
module Surveying {
  import opened Wrappers
  import opened Routing
  import opened Repository
  import opened Planning
  import opened Bags
  import opened BatchState

  /**
   What a run learned while planning: the refs it fetched, GitHub's answer about each entry, what
   it recorded, the targets it got ready, those git would not reset, and the branches it will
   come back to, still building or red.
   */
  datatype Survey = Survey(
    fetched: bool,
    refs: Refs,
    states: seq<CiState>,
    events: seq<Event>,
    valid: seq<string>,
    stuck: set<string>,
    flight: set<string>,
    retry: set<string>)

  predicate OnFork(cfg: Config, refs: Refs, name: string) {
    name in refs.fork || Logical(name, cfg.strip) in refs.fork
  }

  /** The branch is one to plan for: not held, on the fork, and CI waived, green, running or red. */
  predicate Counts(cfg: Config, refs: Refs, held: set<string>, entry: Entry, state: CiState) {
    && entry.name !in held && OnFork(cfg, refs, entry.name)
    && (cfg.skipCi || state == Passing || StillRunning(state) || state == Failing)
  }

  /** What is recorded of a branch that is not. */
  function WhyNot(cfg: Config, refs: Refs, held: set<string>, entry: Entry, state: CiState): Outcome {
    if entry.name in held then HeldBack
    else if !OnFork(cfg, refs, entry.name) then NotOnFork
    else if state == CiError then CiUnreadable
    else NoCi
  }

  /** The branch as it is planned: the fork's commit or its local rewrite, green as far as CI was heard. */
  function Looked(cfg: Config, signatures: Signatures, refs: Refs, entry: Entry, state: CiState): Source
    requires OnFork(cfg, refs, entry.name)
  {
    var forkName := if entry.name in refs.fork then entry.name else Logical(entry.name, cfg.strip);
    var forkHead := refs.fork[forkName];
    var rewritten := !cfg.pickFromFork && entry.name in refs.local;
    var src := FreshSource(entry).(forkName := forkName, forkHead := forkHead,
      pickName := if rewritten then entry.name else forkName,
      head := if rewritten then refs.local[entry.name] else forkHead);
    src.(ciGreen := !cfg.skipCi && state == Passing,
         ciCovers := (cfg.skipCi || state == Passing) && (|| src.head == src.forkHead
           || (src.head in signatures && src.forkHead in signatures
               && signatures[src.head] == signatures[src.forkHead])))
  }

  /** An entry's branch is planned as plan() decides, or what kept it out is on record. */
  ghost predicate Accounted(cfg: Config, signatures: Signatures, held: set<string>, x: Setting, s: Survey,
                            entry: Entry, state: CiState, plans: seq<Item>)
  {
    if Counts(cfg, s.refs, held, entry, state) then
      && (s.valid != [] ==>
            match PlanOf(cfg, s.refs, x, Looked(cfg, signatures, s.refs, entry, state))
            case Some(planned) => planned in plans && planned.src.name == entry.name
            case None => forall p | p in plans :: p.src.name != entry.name)
      && (s.valid != [] ==> (entry.name in s.flight <==> !cfg.skipCi && StillRunning(state)))
      && (s.valid != [] ==> (entry.name in s.retry <==> !cfg.skipCi && state == Failing))
    else
      && Event(entry.name, "-", WhyNot(cfg, s.refs, held, entry, state)) in s.events
      && forall p | p in plans :: p.src.name != entry.name
  }

  /** The targets of a run: the configured ones that are upstream and that git put there, each once, in order. */
  ghost predicate Usable(targets: seq<string>, refs: Refs, stuck: set<string>, valid: seq<string>, at: seq<nat>) {
    && Distinct(valid) && (forall t :: t in valid <==> t in targets && t in refs.upstream && t !in stuck)
    && |at| == |valid| && (forall k | 0 <= k < |at| :: at[k] < |targets| && targets[at[k]] == valid[k])
    && forall j, k | 0 <= j < k < |at| :: at[j] < at[k]
  }

  lemma UsableOneMore(targets: seq<string>, i: nat, refs: Refs, stuck: set<string>, valid: seq<string>, at: seq<nat>,
                      refused: bool, ok: bool)
    requires i < |targets| && Usable(targets[..i], refs, stuck, valid, at) && forall t | t in stuck :: t in targets[..i]
    requires targets[i] !in targets[..i] && (ok <==> targets[i] in refs.upstream && !refused)
    ensures
      var stuck', valid', at' := if refused then stuck + {targets[i]} else stuck,
        if ok then valid + [targets[i]] else valid, if ok then at + [i] else at;
      (forall t | t in stuck' :: t in targets[..i + 1]) && Usable(targets[..i + 1], refs, stuck', valid', at')
  {
    assert targets[..i + 1] == targets[..i] + [targets[i]];
    var target := targets[i];
    assert target !in valid;
    if ok {
      forall k | 0 <= k < |at| ensures at[k] < i && targets[at[k]] == valid[k] {
        assert targets[..i][at[k]] == valid[k];
      }
    }
  }

  lemma UsableAgain(targets: seq<string>, i: nat, refs: Refs, stuck: set<string>, valid: seq<string>, at: seq<nat>)
    requires i < |targets| && Usable(targets[..i], refs, stuck, valid, at) && targets[i] in targets[..i]
    ensures Usable(targets[..i + 1], refs, stuck, valid, at)
  {
    assert targets[..i + 1] == targets[..i] + [targets[i]];
  }

  /**
   Once both remotes are fetched, every entry is accounted for, one plan for a name and none for
   a name not listed; and with any branch to plan for, every target that can be used is.
   */
  ghost predicate Surveyed(cfg: Config, signatures: Signatures, held: set<string>, rows: seq<Row>,
                           merged: set<(string, string)>, entries: seq<Entry>, s: Survey, plans: seq<Item>)
  {
    var x := Setting(rows, merged, Names(entries), s.valid);
    && |s.states| == |entries|
    && (forall i | 0 <= i < |entries| :: Accounted(cfg, signatures, held, x, s, entries[i], s.states[i], plans))
    && (forall e | e in s.events :: exists i | 0 <= i < |entries| ::
          !Counts(cfg, s.refs, held, entries[i], s.states[i]) &&
          e == Event(entries[i].name, "-", WhyNot(cfg, s.refs, held, entries[i], s.states[i])))
    && ((exists i | 0 <= i < |entries| :: Counts(cfg, s.refs, held, entries[i], s.states[i])) ==>
          exists at :: Usable(cfg.targets, s.refs, s.stuck, s.valid, at))
    && Distinct(ItemNames(plans)) && (forall p | p in plans :: p.src.name in Names(entries))
    && (s.valid == [] ==> plans == [])
  }

  lemma SurveyedNames(cfg: Config, signatures: Signatures, held: set<string>, rows: seq<Row>,
                      merged: set<(string, string)>, entries: seq<Entry>, s: Survey, plans: seq<Item>)
    requires Surveyed(cfg, signatures, held, rows, merged, entries, s, plans)
    ensures Distinct(ItemNames(plans)) && forall p | p in plans :: p.src.name in Names(entries)
  {
  }

  // ------------------------------------------------------------ the piles

  function PileOf(cfg: Config, look: Look, state: CiState): seq<Item> {
    if cfg.skipCi || state == Passing then look.ready else if StillRunning(state) then look.still else look.late
  }

  /** The entry is on its pile, or its event is recorded. */
  ghost predicate Placed(cfg: Config, signatures: Signatures, refs: Refs, held: set<string>, entry: Entry,
                         state: CiState, look: Look, events: seq<Event>)
  {
    if Counts(cfg, refs, held, entry, state) then
      Item(Looked(cfg, signatures, refs, entry, state), []) in PileOf(cfg, look, state)
    else
      Event(entry.name, "-", WhyNot(cfg, refs, held, entry, state)) in events
  }

  /** What is on a pile, or recorded, is there because of an entry. */
  ghost predicate Sourced(cfg: Config, signatures: Signatures, refs: Refs, held: set<string>, entries: seq<Entry>,
                          states: seq<CiState>, look: Look, events: seq<Event>)
    requires |entries| == |states|
  {
    && (forall it | it in look.ready :: exists i | 0 <= i < |entries| ::
          Counts(cfg, refs, held, entries[i], states[i]) && (cfg.skipCi || states[i] == Passing) &&
          it == Item(Looked(cfg, signatures, refs, entries[i], states[i]), []))
    && (forall it | it in look.still :: exists i | 0 <= i < |entries| ::
          Counts(cfg, refs, held, entries[i], states[i]) && !cfg.skipCi && StillRunning(states[i]) &&
          it == Item(Looked(cfg, signatures, refs, entries[i], states[i]), []))
    && (forall it | it in look.late :: exists i | 0 <= i < |entries| ::
          Counts(cfg, refs, held, entries[i], states[i]) && !cfg.skipCi && states[i] == Failing &&
          it == Item(Looked(cfg, signatures, refs, entries[i], states[i]), []))
    && (forall e | e in events :: exists i | 0 <= i < |entries| ::
          !Counts(cfg, refs, held, entries[i], states[i]) &&
          e == Event(entries[i].name, "-", WhyNot(cfg, refs, held, entries[i], states[i])))
  }

  ghost predicate Piled(cfg: Config, signatures: Signatures, refs: Refs, held: set<string>, entries: seq<Entry>,
                        states: seq<CiState>, look: Look, events: seq<Event>)
    requires |entries| == |states|
  {
    && (forall i | 0 <= i < |entries| ::
          Placed(cfg, signatures, refs, held, entries[i], states[i], look, events))
    && Sourced(cfg, signatures, refs, held, entries, states, look, events)
  }

  /** One entry adds one thing: an item to its pile, or an event. */
  lemma OneEntry(cfg: Config, signatures: Signatures, refs: Refs, held: set<string>, look: Look, entry: Entry,
                 state: CiState)
    ensures
      var (after, events) := Classified(cfg, refs, signatures, held, look, entry, state);
      if Counts(cfg, refs, held, entry, state) then
        var it := Item(Looked(cfg, signatures, refs, entry, state), []);
        events == [] && after ==
          if cfg.skipCi || state == Passing then look.(ready := look.ready + [it])
          else if StillRunning(state) then look.(still := look.still + [it])
          else look.(late := look.late + [it])
      else
        && events == [Event(entry.name, "-", WhyNot(cfg, refs, held, entry, state))]
        && after == look.(gone := look.gone + [entry.name])
  {
    hide Logical;
    if Counts(cfg, refs, held, entry, state) {
      var src := Resolved(cfg, refs, FreshSource(entry)).value;
      if cfg.skipCi {
        assert Looked(cfg, signatures, refs, entry, state) == CheckCoverage(signatures, src);
      } else if state == Passing {
        assert Looked(cfg, signatures, refs, entry, state) == GreenNow(signatures, Item(src, [])).src;
      } else {
        assert Looked(cfg, signatures, refs, entry, state) == src;
      }
    }
  }

  lemma PlacedStays(cfg: Config, signatures: Signatures, refs: Refs, held: set<string>, entry: Entry, state: CiState,
                    look: Look, events: seq<Event>, after: Look, more: seq<Event>)
    requires Placed(cfg, signatures, refs, held, entry, state, look, events)
    requires look.ready <= after.ready && look.still <= after.still && look.late <= after.late && events <= more
    ensures Placed(cfg, signatures, refs, held, entry, state, after, more)
  {
    hide Looked, Counts, WhyNot;
  }

  /** Sorting a list puts every entry on its pile and nothing else anywhere. */
  lemma {:induction false} ClassifiedMeaning(cfg: Config, signatures: Signatures, refs: Refs, held: set<string>,
                                             entries: seq<Entry>, states: seq<CiState>)
    requires |entries| == |states|
    ensures
      var (look, events) := ClassifiedAll(cfg, refs, signatures, held, entries, states);
      Piled(cfg, signatures, refs, held, entries, states, look, events)
    decreases |entries|
  {
    if entries != [] {
      hide Classified, Looked, Counts, WhyNot, Placed;
      var n := |entries| - 1;
      var (look, events) := ClassifiedAll(cfg, refs, signatures, held, entries[..n], states[..n]);
      ClassifiedMeaning(cfg, signatures, refs, held, entries[..n], states[..n]);
      var (after, more) := Classified(cfg, refs, signatures, held, look, entries[n], states[n]);
      PiledOneMore(cfg, signatures, refs, held, entries, states, look, events, after, more);
    }
  }

  lemma PiledOneMore(cfg: Config, signatures: Signatures, refs: Refs, held: set<string>, entries: seq<Entry>,
                     states: seq<CiState>, look: Look, events: seq<Event>, after: Look, more: seq<Event>)
    requires |entries| == |states| && entries != []
    requires
      var n := |entries| - 1;
      && Piled(cfg, signatures, refs, held, entries[..n], states[..n], look, events)
      && (after, more) == Classified(cfg, refs, signatures, held, look, entries[n], states[n])
    ensures Piled(cfg, signatures, refs, held, entries, states, after, events + more)
  {
    hide Classified, Looked, Counts, WhyNot, Sourced;
    var n := |entries| - 1;
    OneEntry(cfg, signatures, refs, held, look, entries[n], states[n]);
    forall i | 0 <= i < |entries|
      ensures Placed(cfg, signatures, refs, held, entries[i], states[i], after, events + more)
    {
      if i < n {
        assert entries[..n][i] == entries[i] && states[..n][i] == states[i];
        PlacedStays(cfg, signatures, refs, held, entries[i], states[i], look, events, after, events + more);
      }
    }
    SourcedOneMore(cfg, signatures, refs, held, entries, states, look, events, after, more);
  }

  lemma SourcedOneMore(cfg: Config, signatures: Signatures, refs: Refs, held: set<string>, entries: seq<Entry>,
                       states: seq<CiState>, look: Look, events: seq<Event>, after: Look, more: seq<Event>)
    requires |entries| == |states| && entries != []
    requires
      var n := |entries| - 1;
      && Sourced(cfg, signatures, refs, held, entries[..n], states[..n], look, events)
      && (after, more) == Classified(cfg, refs, signatures, held, look, entries[n], states[n])
    ensures Sourced(cfg, signatures, refs, held, entries, states, after, events + more)
  {
    hide Classified, Looked, WhyNot;
    var n := |entries| - 1;
    OneEntry(cfg, signatures, refs, held, look, entries[n], states[n]);
    assert forall i | 0 <= i < n :: entries[..n][i] == entries[i] && states[..n][i] == states[i];
  }

  // ------------------------------------------------------------ the plans

  /** The plans are what plan() says of the branches seen, and nothing else. */
  ghost predicate PlannedFrom(cfg: Config, refs: Refs, x: Setting, seen: seq<Item>, plans: seq<Item>) {
    && (forall p | p in plans :: exists it | it in seen :: PlanOf(cfg, refs, x, it.src) == Some(p))
    && (forall it | it in seen :: PlanOf(cfg, refs, x, it.src) == None ||
          exists p | p in plans :: PlanOf(cfg, refs, x, it.src) == Some(p))
  }

  lemma PlanKeepsName(cfg: Config, refs: Refs, x: Setting, src: Source, p: Item)
    requires PlanOf(cfg, refs, x, src) == Some(p)
    ensures p.src.name == src.name
  {
  }

  /** What was seen is one of the entries, and different entries have different names. */
  lemma SeenIsEntry(cfg: Config, signatures: Signatures, refs: Refs, held: set<string>, entries: seq<Entry>,
                    states: seq<CiState>, look: Look, events: seq<Event>, it: Item) returns (j: nat)
    requires |entries| == |states| && Sourced(cfg, signatures, refs, held, entries, states, look, events)
    requires it in look.ready + look.still + look.late
    ensures j < |entries| && Counts(cfg, refs, held, entries[j], states[j])
    ensures it.src == Looked(cfg, signatures, refs, entries[j], states[j]) && it.src.name == entries[j].name
    ensures it in look.still ==> exists k | 0 <= k < |entries| ::
      entries[k].name == it.src.name && !cfg.skipCi && StillRunning(states[k])
    ensures it in look.late ==> exists k | 0 <= k < |entries| ::
      entries[k].name == it.src.name && !cfg.skipCi && states[k] == Failing
  {
    hide SameChange, Logical;
    if it in look.ready {
      j :| 0 <= j < |entries| && Counts(cfg, refs, held, entries[j], states[j]) &&
        it == Item(Looked(cfg, signatures, refs, entries[j], states[j]), []);
    } else if it in look.still {
      j :| 0 <= j < |entries| && Counts(cfg, refs, held, entries[j], states[j]) && !cfg.skipCi &&
        StillRunning(states[j]) && it == Item(Looked(cfg, signatures, refs, entries[j], states[j]), []);
    } else {
      j :| 0 <= j < |entries| && Counts(cfg, refs, held, entries[j], states[j]) && !cfg.skipCi &&
        states[j] == Failing && it == Item(Looked(cfg, signatures, refs, entries[j], states[j]), []);
    }
  }

  lemma SameEntry(entries: seq<Entry>, i: nat, j: nat)
    requires Distinct(Names(entries)) && i < |entries| && j < |entries| && entries[i].name == entries[j].name
    ensures i == j
  {
    assert Names(entries)[i] == Names(entries)[j];
  }

  lemma EntryAccounted(cfg: Config, signatures: Signatures, held: set<string>, x: Setting, s: Survey,
                       entries: seq<Entry>, look: Look, plans: seq<Item>, i: nat)
    requires |s.states| == |entries| && Distinct(Names(entries)) && i < |entries|
    requires Piled(cfg, signatures, s.refs, held, entries, s.states, look, s.events)
    requires s.valid == [] ==> plans == []
    requires s.valid != [] ==>
      && PlannedFrom(cfg, s.refs, x, look.ready + look.still + look.late, plans)
      && s.flight == NameSet(look.still) && s.retry == NameSet(look.late)
    ensures Accounted(cfg, signatures, held, x, s, entries[i], s.states[i], plans)
  {
    hide PlanOf, Sourced, WhyNot;
    var entry, state := entries[i], s.states[i];
    var seen := look.ready + look.still + look.late;
    assert Placed(cfg, signatures, s.refs, held, entry, state, look, s.events);
    forall p | p in plans && p.src.name == entry.name
      ensures
        Counts(cfg, s.refs, held, entry, state) &&
        PlanOf(cfg, s.refs, x, Looked(cfg, signatures, s.refs, entry, state)) == Some(p)
    {
      var it :| it in seen && PlanOf(cfg, s.refs, x, it.src) == Some(p);
      PlanKeepsName(cfg, s.refs, x, it.src, p);
      var j := SeenIsEntry(cfg, signatures, s.refs, held, entries, s.states, look, s.events, it);
      SameEntry(entries, i, j);
    }
    if s.valid != [] && Counts(cfg, s.refs, held, entry, state) {
      WherePiled(cfg, signatures, held, s, entries, look, i);
      var it := Item(Looked(cfg, signatures, s.refs, entry, state), []);
      assert it in seen;
      match PlanOf(cfg, s.refs, x, it.src)
      case None =>
      case Some(p) => PlanKeepsName(cfg, s.refs, x, it.src, p);
    }
  }

  lemma WherePiled(cfg: Config, signatures: Signatures, held: set<string>, s: Survey, entries: seq<Entry>,
                   look: Look, i: nat)
    requires |s.states| == |entries| && Distinct(Names(entries)) && i < |entries|
    requires Piled(cfg, signatures, s.refs, held, entries, s.states, look, s.events)
    requires s.flight == NameSet(look.still) && s.retry == NameSet(look.late)
    requires Counts(cfg, s.refs, held, entries[i], s.states[i])
    ensures entries[i].name in s.flight <==> !cfg.skipCi && StillRunning(s.states[i])
    ensures entries[i].name in s.retry <==> !cfg.skipCi && s.states[i] == Failing
  {
    hide Sourced, WhyNot, SameChange, Logical;
    var entry, state := entries[i], s.states[i];
    assert Placed(cfg, signatures, s.refs, held, entry, state, look, s.events);
    var here := Item(Looked(cfg, signatures, s.refs, entry, state), []);
    forall it | it in look.still + look.late && it.src.name == entry.name
      ensures it in look.still ==> !cfg.skipCi && StillRunning(state)
      ensures it in look.late ==> !cfg.skipCi && state == Failing
    {
      var j := SeenIsEntry(cfg, signatures, s.refs, held, entries, s.states, look, s.events, it);
      forall k | 0 <= k < |entries| && entries[k].name == it.src.name ensures k == i {
        SameEntry(entries, i, k);
      }
    }
    assert here.src.name == entry.name;
  }

  /** A sorted and planned list is surveyed. */
  lemma AllSurveyed(cfg: Config, signatures: Signatures, held: set<string>, rows: seq<Row>,
                    merged: set<(string, string)>, entries: seq<Entry>, s: Survey, look: Look, plans: seq<Item>)
    requires |s.states| == |entries| && Distinct(Names(entries))
    requires Piled(cfg, signatures, s.refs, held, entries, s.states, look, s.events)
    requires s.valid == [] ==> plans == []
    requires s.valid != [] ==>
      && PlannedFrom(cfg, s.refs, Setting(rows, merged, Names(entries), s.valid),
           look.ready + look.still + look.late, plans)
      && s.flight == NameSet(look.still) && s.retry == NameSet(look.late)
    requires look.ready + look.still + look.late != [] ==> exists at ::
      Usable(cfg.targets, s.refs, s.stuck, s.valid, at)
    requires Distinct(ItemNames(plans)) && forall p | p in plans :: p.src.name in Names(entries)
    ensures Surveyed(cfg, signatures, held, rows, merged, entries, s, plans)
  {
    hide PlannedFrom, Accounted, Counts, WhyNot, Looked, Usable;
    forall i | 0 <= i < |entries|
      ensures Accounted(cfg, signatures, held, Setting(rows, merged, Names(entries), s.valid), s, entries[i],
        s.states[i], plans)
    {
      EntryAccounted(cfg, signatures, held, Setting(rows, merged, Names(entries), s.valid), s, entries, look, plans, i);
    }
    forall i | 0 <= i < |entries| && Counts(cfg, s.refs, held, entries[i], s.states[i])
      ensures look.ready + look.still + look.late != []
    {
      assert Placed(cfg, signatures, s.refs, held, entries[i], s.states[i], look, s.events);
    }
  }
}
