/**
 What the backporter reads from git: linear histories, the base a branch was cut
 from, and whether a target already carries a change.
 */
module Repository {
  import opened Wrappers

  /**
   One commit: its id, its patch id (none for an empty patch), its subject, its whole
   message, and the ids its "(cherry picked from commit ...)" lines name.
   */
  datatype Commit = Commit(id: nat, patch: Option<nat>, subject: string, message: string, trailers: set<nat>)

  /** A ref: its tip and everything below it, oldest first. */
  type History = seq<Commit>

  predicate Holds(h: History, id: nat) {
    exists k | 0 <= k < |h| :: h[k].id == id
  }

  predicate SamePatch(a: Commit, b: Commit) {
    a.patch.Some? && a.patch == b.patch
  }

  predicate Contains(text: string, part: string) {
    exists i | 0 <= i <= |text| :: part <= text[i..]
  }

  const MIN_SUBJECT_LEN := 25

  predicate IsSpecificSubject(subject: string) {
    |Trimmed(subject)| >= MIN_SUBJECT_LEN
  }

  function Trimmed(s: string): string {
    if s == "" then s
    else if s[0] == ' ' || s[0] == '\t' then Trimmed(s[1..])
    else if s[|s| - 1] == ' ' || s[|s| - 1] == '\t' then Trimmed(s[..|s| - 1])
    else s
  }

  // ------------------------------------------------------------ where a branch was cut

  /** Length of the longest common prefix: where two linear histories part. */
  function Shared(a: History, b: History): (n: nat)
    ensures n <= |a| && n <= |b| && a[..n] == b[..n]
    ensures n < |a| && n < |b| ==> a[n] != b[n]
  {
    if a == [] || b == [] || a[0] != b[0] then 0
    else
      var n := Shared(a[1..], b[1..]);
      assert a[..n + 1] == [a[0]] + a[1..][..n] && b[..n + 1] == [b[0]] + b[1..][..n];
      1 + n
  }

  datatype Base = CutFrom(at: History, branch: string) | MergedInto(branch: string) | NoBase

  const BASE_CANDIDATES: seq<string> :=
    ["branch-4.x", "branch-4.3", "branch-4.2", "branch-4.1", "branch-4.0", "branch-3.5"]

  /** A candidate counts when the upstream branch exists and shares history with the head. */
  predicate Related(upstream: map<string, History>, head: History, c: string) {
    c in upstream && Shared(upstream[c], head) > 0
  }

  /** Commits the head has over candidate c. */
  function Distance(upstream: map<string, History>, head: History, c: string): int
    requires c in upstream
  {
    |head| - Shared(upstream[c], head)
  }

  method BestBase(upstream: map<string, History>, head: History, candidates: seq<string>) returns (best: Base)
    ensures IsBestBase(upstream, head, candidates, best)
  {
    hide Shared;
    best := NoBase;
    var bestCount := -1;
    var seen: set<string> := {};
    for i := 0 to |candidates|
      invariant forall c :: c in seen <==> c in candidates[..i]
      invariant IsBestBase(upstream, head, candidates[..i], best)
      invariant !best.MergedInto?
      invariant bestCount == if best.CutFrom? then |head| - |best.at| else -1
    {
      var c := candidates[i];
      assert candidates[..i + 1] == candidates[..i] + [c];
      if c in seen {
        BestBaseRepeats(upstream, head, candidates[..i], c, best);
        continue;
      }
      seen := seen + {c};
      if c !in upstream { continue; }
      var at := Shared(upstream[c], head);
      if at == 0 { continue; }
      var count := |head| - at;
      if count == 0 {
        assert forall j | 0 <= j < i :: candidates[..i][j] == candidates[j];
        return MergedInto(c);
      }
      if bestCount < 0 || count < bestCount {
        bestCount, best := count, CutFrom(head[..at], c);
      }
    }
    assert candidates[..|candidates|] == candidates;
  }

  /**
   The first candidate that already contains the head, if any; otherwise the closest
   one, the earliest among equals; otherwise nothing.
   */
  ghost predicate IsBestBase(upstream: map<string, History>, head: History, candidates: seq<string>, best: Base) {
    match best
    case MergedInto(c) =>
      exists i | 0 <= i < |candidates| ::
        && candidates[i] == c && Related(upstream, head, c) && Distance(upstream, head, c) == 0
        && forall j | 0 <= j < i && Related(upstream, head, candidates[j]) ::
          Distance(upstream, head, candidates[j]) > 0
    case CutFrom(at, c) =>
      exists i | 0 <= i < |candidates| ::
        && candidates[i] == c && Related(upstream, head, c)
        && at == head[..Shared(upstream[c], head)] && |at| < |head|
        && (forall j | 0 <= j < |candidates| && Related(upstream, head, candidates[j]) ::
              Distance(upstream, head, c) <= Distance(upstream, head, candidates[j]))
        && (forall j | 0 <= j < i && Related(upstream, head, candidates[j]) ::
              Distance(upstream, head, c) < Distance(upstream, head, candidates[j]))
    case NoBase =>
      forall j | 0 <= j < |candidates| :: !Related(upstream, head, candidates[j])
  }

  lemma BestBaseRepeats(upstream: map<string, History>, head: History, candidates: seq<string>, c: string, best: Base)
    requires c in candidates && IsBestBase(upstream, head, candidates, best)
    ensures IsBestBase(upstream, head, candidates + [c], best)
  {
    var more := candidates + [c];
    assert forall j | 0 <= j < |more| :: more[j] in candidates;
    match best
    case MergedInto(b) =>
      var i :| 0 <= i < |candidates| &&
        candidates[i] == b && Related(upstream, head, b) && Distance(upstream, head, b) == 0
        && forall j | 0 <= j < i && Related(upstream, head, candidates[j]) ::
          Distance(upstream, head, candidates[j]) > 0;
      assert more[i] == b;
    case CutFrom(at, b) =>
      var i :| 0 <= i < |candidates|
        && candidates[i] == b && Related(upstream, head, b)
        && at == head[..Shared(upstream[b], head)] && |at| < |head|
        && (forall j | 0 <= j < |candidates| && Related(upstream, head, candidates[j]) ::
              Distance(upstream, head, b) <= Distance(upstream, head, candidates[j]))
        && (forall j | 0 <= j < i && Related(upstream, head, candidates[j]) ::
              Distance(upstream, head, b) < Distance(upstream, head, candidates[j]));
      assert more[i] == b;
    case NoBase =>
  }

  /** There is only one best base. */
  lemma BestBaseUnique(upstream: map<string, History>, head: History, candidates: seq<string>, a: Base, b: Base)
    requires IsBestBase(upstream, head, candidates, a) && IsBestBase(upstream, head, candidates, b)
    ensures a == b
  {
  }

  /** There is always one. */
  lemma {:induction false} BestBaseExists(upstream: map<string, History>, head: History,
      candidates: seq<string>) returns (best: Base)
    ensures IsBestBase(upstream, head, candidates, best)
    decreases |candidates|
  {
    hide Shared, Related, Distance;
    if candidates == [] {
      best := NoBase;
    } else {
      var front, c := candidates[..|candidates| - 1], candidates[|candidates| - 1];
      var before := BestBaseExists(upstream, head, front);
      assert candidates == front + [c];
      if c in front {
        BestBaseRepeats(upstream, head, front, c, before);
        best := before;
      } else if before.MergedInto? || !Related(upstream, head, c) {
        best := before;
        assert forall j | 0 <= j < |front| :: candidates[j] == front[j];
      } else {
        best := NearerBase(upstream, head, front, c, before);
      }
    }
  }

  lemma NearerBase(upstream: map<string, History>, head: History, front: seq<string>, c: string,
      before: Base) returns (best: Base)
    requires IsBestBase(upstream, head, front, before) && !before.MergedInto? && Related(upstream, head, c)
    ensures IsBestBase(upstream, head, front + [c], best)
  {
    hide Shared;
    var at := Shared(upstream[c], head);
    assert forall j | 0 <= j < |front| :: (front + [c])[j] == front[j];
    if at == |head| {
      best := MergedInto(c);
      assert (front + [c])[|front|] == c;
    } else if before.NoBase? || |head| - at < |head| - |before.at| {
      best := CutFrom(head[..at], c);
      assert (front + [c])[|front|] == c;
    } else {
      best := before;
    }
  }

  // ------------------------------------------------------------ has it landed already?

  datatype Landed = Absent | Skip(rule: Rule) | Flag
  datatype Rule = SamePatchId | CherryPickTrailer | SameSubjectAndPatch

  /** The commits a branch adds over its base. */
  function Series(base: History, head: History): History {
    if base <= head then head[|base|..] else []
  }

  /** `git cherry upstream head base` marks c with "-": upstream has the same patch outside head. */
  predicate MarkedThere(upstream: History, head: History, c: Commit) {
    exists u | u in upstream :: !Holds(head, u.id) && SamePatch(u, c)
  }

  /** `git cherry` lists the commits of the series that upstream does not hold as they are. */
  function Unheld(upstream: History, series: History): (rest: History)
    ensures forall c :: c in rest <==> c in series && !Holds(upstream, c.id)
  {
    if series == [] then []
    else (if Holds(upstream, series[0].id) then [] else [series[0]]) + Unheld(upstream, series[1..])
  }

  predicate AllMarked(upstream: History, head: History, listed: History) {
    listed != [] && forall c | c in listed :: MarkedThere(upstream, head, c)
  }

  /** Commits reachable from upstream but not from base. */
  function Span(base: History, upstream: History): (span: History)
    ensures forall u :: u in span <==> u in upstream && !Holds(base, u.id)
  {
    if upstream == [] then []
    else (if Holds(base, upstream[0].id) then [] else [upstream[0]]) + Span(base, upstream[1..])
  }

  predicate NamedIn(span: History, spellings: set<nat>) {
    exists u | u in span :: u.trailers * spellings != {}
  }

  /** The commits in the span whose message mentions c's subject; none when the subject says too little. */
  predicate IsTwin(span: History, u: Commit, c: Commit) {
    IsSpecificSubject(c.subject) && u in span && Contains(u.message, c.subject)
  }

  predicate HasTwin(span: History, c: Commit) {
    exists u | u in span :: IsTwin(span, u, c)
  }

  predicate HasSameTwin(span: History, c: Commit) {
    exists u | u in span :: IsTwin(span, u, c) && SamePatch(c, u)
  }

  /**
   already_landed(): what the target has for a series cut at base, given every sha the
   change may have been recorded under.
   */
  function AlreadyLanded(target: History, base: History, head: History, spellings: set<nat>): Landed {
    var series, span := Series(base, head), Span(base, target);
    if AllMarked(target, head, Unheld(target, series)) then Skip(SamePatchId)
    else if series != [] && NamedIn(span, spellings) then Skip(CherryPickTrailer)
    else if series != [] && (forall c | c in series :: HasSameTwin(span, c)) then Skip(SameSubjectAndPatch)
    else if exists c | c in series :: HasTwin(span, c) && !HasSameTwin(span, c) then Flag
    else Absent
  }

  /** A commit the target has over the base, whose message mentions a subject that says enough. */
  ghost predicate Mentions(target: History, base: History, u: Commit, c: Commit) {
    u in target && !Holds(base, u.id) && IsSpecificSubject(c.subject) && Contains(u.message, c.subject)
  }

  /**
   A series has landed in one of three ways -- by patch, by a trailer, by subject and patch -- and
   is flagged when a commit's subject is there and its patch is not.
   */
  lemma LandedExactlyWhen(target: History, base: History, head: History, spellings: set<nat>)
    requires base <= head
    ensures
      var series := head[|base|..];
      var samePatch := (exists c :: c in series && !Holds(target, c.id)) && forall c | c in series ::
        Holds(target, c.id) || exists u :: u in target && !Holds(head, u.id) && SamePatch(u, c);
      var named := series != [] && exists u :: u in target && !Holds(base, u.id) && u.trailers * spellings != {};
      var retold := series != [] && forall c | c in series ::
        exists u :: Mentions(target, base, u, c) && SamePatch(c, u);
      && (AlreadyLanded(target, base, head, spellings).Skip? <==> samePatch || named || retold)
      && (AlreadyLanded(target, base, head, spellings).Flag? <==>
            && !samePatch && !named && !retold
            && exists c :: c in series && (exists u :: Mentions(target, base, u, c)) &&
                 forall u | Mentions(target, base, u, c) :: !SamePatch(c, u))
  {
    hide Holds, Contains, IsSpecificSubject, SamePatch;
    var series, span := Series(base, head), Span(base, target);
    assert series == head[|base|..];
    assert forall u, c :: IsTwin(span, u, c) <==> Mentions(target, base, u, c);
    assert forall c :: HasTwin(span, c) <==> exists u :: Mentions(target, base, u, c);
    assert forall c :: HasSameTwin(span, c) <==> exists u :: Mentions(target, base, u, c) && SamePatch(c, u);
    UnheldIsSeries(target, head, series);
  }

  lemma UnheldIsSeries(target: History, head: History, series: History)
    ensures AllMarked(target, head, Unheld(target, series)) <==>
      && (exists c :: c in series && !Holds(target, c.id))
      && forall c | c in series ::
           Holds(target, c.id) || exists u :: u in target && !Holds(head, u.id) && SamePatch(u, c)
  {
    hide Holds, SamePatch;
    var rest := Unheld(target, series);
    if rest != [] {
      assert rest[0] in rest;
    }
  }

  /** The target really carries this commit: itself, its patch, or a pick naming one of its shas. */
  predicate Carries(target: History, c: Commit, spellings: set<nat>) {
    || Holds(target, c.id)
    || (exists u | u in target :: SamePatch(u, c))
    || (exists u | u in target :: u.trailers * spellings != {})
  }

  /** For a one-commit series, the only kind that is ever merged, a skip is never wrong. */
  lemma SkipIsSound(target: History, base: History, head: History, spellings: set<nat>)
    requires |Series(base, head)| == 1 && AlreadyLanded(target, base, head, spellings).Skip?
    ensures Carries(target, Series(base, head)[0], spellings)
  {
    var series, span := Series(base, head), Span(base, target);
    var c := series[0];
    if AllMarked(target, head, Unheld(target, series)) {
      if !Holds(target, c.id) {
        assert c in Unheld(target, series);
        var u :| u in target && !Holds(head, u.id) && SamePatch(u, c);
      }
    } else if NamedIn(span, spellings) {
    } else {
      assert c in series;
      var u :| u in span && IsTwin(span, u, c) && SamePatch(c, u);
      assert u in target && SamePatch(u, c);
    }
  }

  /** Without the trailer rule, a skip means every commit of the series is carried by identity or patch. */
  lemma PatchSkipIsSound(target: History, base: History, head: History, spellings: set<nat>, c: Commit)
    requires AlreadyLanded(target, base, head, spellings).Skip?
    requires AlreadyLanded(target, base, head, spellings).rule != CherryPickTrailer
    requires c in Series(base, head)
    ensures Carries(target, c, {})
  {
    var series, span := Series(base, head), Span(base, target);
    if AllMarked(target, head, Unheld(target, series)) {
      if !Holds(target, c.id) {
        assert c in Unheld(target, series);
        var u :| u in target && !Holds(head, u.id) && SamePatch(u, c);
      }
    } else {
      var u :| u in span && IsTwin(span, u, c) && SamePatch(c, u);
      assert u in target && SamePatch(u, c);
    }
  }

  /**
   The trailer rule is asked the same question for every commit of the series, so one pick
   of one commit answers for all: a two-commit branch with only its first half on the target
   is reported as landed.
   */
  lemma TrailerSkipCoversTooMuch()
    ensures exists target: History, base: History, head: History, c ::
      && c in Series(base, head)
      && AlreadyLanded(target, base, head, {1, 2}) == Skip(CherryPickTrailer)
      && !Carries(target, c, {c.id})
  {
    hide HasTwin, HasSameTwin, Unheld, Span;
    var root := Commit(0, None, "root", "root", {});
    var first := Commit(1, Some(10), "one", "one", {});
    var second := Commit(2, Some(20), "two", "two", {});
    var picked := Commit(3, Some(11), "one", "one", {1});
    var base, head, target := [root], [root, first, second], [root, picked];
    assert Series(base, head) == [first, second];
    assert !Holds(target, 1) && !Holds(target, 2);
    assert first in Unheld(target, [first, second]);
    assert !MarkedThere(target, head, first);
    assert target[1] == picked && !Holds(base, 3);
    assert picked in Span(base, target) && 1 in picked.trailers * {1, 2};
    assert second in Series(base, head) && !Carries(target, second, {second.id});
  }

  // ------------------------------------------------------------ exactly when a skip is sound

  function IdsIn(h: History): set<nat> {
    set c | c in h :: c.id
  }

  /**
   The series is new work: its ids differ, and nothing below the base has one of them, a patch of
   the series, or a trailer naming one of the shas. `extra` are the other shas the change is known
   by: its fork head, and what it landed on master as.
   */
  ghost predicate NewWork(base: History, series: History, extra: set<nat>) {
    && (forall i, j | 0 <= i < j < |series| :: series[i].id != series[j].id)
    && (forall u, c | u in base && c in series :: u.id != c.id && !SamePatch(u, c))
    && (forall u | u in base :: u.trailers * (IdsIn(series) + extra) == {})
    && (|series| > 1 ==> series[0].id !in extra)
  }

  /** Whatever the target holds: when the series is skipped, the target carries each of its commits. */
  ghost predicate SkipsAreSound(base: History, head: History, extra: set<nat>) {
    forall target: History, c |
      c in Series(base, head) && AlreadyLanded(target, base, head, IdsIn(Series(base, head)) + extra).Skip? ::
      Carries(target, c, {c.id} + extra)
  }

  function FreshId(h: History): (id: nat)
    ensures forall c | c in h :: c.id < id
  {
    if h == [] then 0 else
      var rest := FreshId(h[1..]);
      if h[0].id < rest then rest else h[0].id + 1
  }

  /** A target with one foreign commit on top of the base, whose trailer names the first of the series. */
  function Decoy(base: History, head: History): History
    requires Series(base, head) != []
  {
    base + [Commit(FreshId(base + head), None, "", "", {Series(base, head)[0].id})]
  }

  lemma DecoyIsSkipped(base: History, head: History, extra: set<nat>)
    requires Series(base, head) != []
    ensures AlreadyLanded(Decoy(base, head), base, head, IdsIn(Series(base, head)) + extra).Skip?
  {
    hide AllMarked, HasTwin, HasSameTwin, Unheld, Span;
    var series, target := Series(base, head), Decoy(base, head);
    var decoy := target[|base|];
    assert decoy in target && !Holds(base, decoy.id) by {
      assert forall c | c in base :: c in base + head;
    }
    assert series[0].id in decoy.trailers * (IdsIn(series) + extra);
    assert decoy in Span(base, target);
  }

  lemma DecoyCarriesNoOther(base: History, head: History, extra: set<nat>)
    requires |Series(base, head)| > 1 && NewWork(base, Series(base, head), extra)
    ensures var c := Series(base, head)[1]; !Carries(Decoy(base, head), c, {c.id} + extra)
  {
    var series, target := Series(base, head), Decoy(base, head);
    var c := series[1];
    assert c in series && c in head && c in base + head;
    forall u | u in target ensures u.id != c.id && !SamePatch(u, c) && u.trailers * ({c.id} + extra) == {} {
      if u in base {
        assert {c.id} + extra <= IdsIn(series) + extra;
      }
    }
  }

  /**
   The trailer rule asks the same question for every commit of the series, so skipping is sound,
   whatever the target holds, exactly for one commit or none.
   */
  lemma SkipIsSoundExactlyWhen(base: History, head: History, extra: set<nat>)
    requires NewWork(base, Series(base, head), extra)
    ensures SkipsAreSound(base, head, extra) <==> |Series(base, head)| <= 1
  {
    hide AlreadyLanded, Carries, NewWork;
    var series := Series(base, head);
    if |series| <= 1 {
      forall target: History, c | c in series && AlreadyLanded(target, base, head, IdsIn(series) + extra).Skip?
        ensures Carries(target, c, {c.id} + extra)
      {
        assert IdsIn(series) == {c.id};
        SkipIsSound(target, base, head, IdsIn(series) + extra);
      }
    } else {
      DecoyIsSkipped(base, head, extra);
      DecoyCarriesNoOther(base, head, extra);
      assert series[1] in series;
    }
  }

  /** A patch that reached the target under a sha of its own is recognised from then on. */
  lemma PushedIsRecognised(target: History, base: History, head: History, spellings: set<nat>, u: Commit)
    requires |Series(base, head)| == 1
    requires u in target && !Holds(head, u.id) && SamePatch(u, Series(base, head)[0])
    requires !Holds(target, Series(base, head)[0].id)
    ensures AlreadyLanded(target, base, head, spellings) == Skip(SamePatchId)
  {
    var series := Series(base, head);
    assert Unheld(target, series) == series by { assert series[1..] == []; }
    assert MarkedThere(target, head, series[0]);
  }

  // ------------------------------------------------------------ the commit that landed

  function Patches(created: History): set<Option<nat>> {
    set m | m in created && m.patch.Some? :: m.patch
  }

  /** The commits of h that have a patch of ours, in order. */
  function Ours(h: History, created: History): History {
    if h == [] then [] else
      Ours(h[..|h| - 1], created) + if InSeries(h[|h| - 1], created) then [h[|h| - 1]] else []
  }

  lemma {:induction false} OursTogether(a: History, b: History, created: History)
    ensures Ours(a + b, created) == Ours(a, created) + Ours(b, created)
    decreases |b|
  {
    if b == [] {
      assert a + b == a;
    } else {
      OursTogether(a, b[..|b| - 1], created);
      assert (a + b)[..|a + b| - 1] == a + b[..|b| - 1];
    }
  }

  lemma OursOneMore(head: History, created: History, k: nat)
    requires k < |head|
    ensures Ours(head[k..], created) ==
      (if InSeries(head[k], created) then [head[k]] else []) + Ours(head[k + 1..], created)
  {
    OursTogether([head[k]], head[k + 1..], created);
    assert [head[k]] + head[k + 1..] == head[k..];
    assert [head[k]][..0] == [];
  }

  lemma OursFrom(head: History, created: History, lo: nat, k: nat)
    requires lo <= k <= |head|
    ensures Ours(head[lo..], created) == Ours(head[lo..k], created) + Ours(head[k..], created)
  {
    OursTogether(head[lo..k], head[k..], created);
    assert head[lo..k] + head[k..] == head[lo..];
  }

  /** The last n elements, or all. */
  function Tail(h: History, n: nat): History {
    if |h| <= n then h else h[|h| - n..]
  }

  lemma TailIsPart(h: History, n: nat)
    ensures forall c | c in Tail(h, n) :: c in h
    ensures n > 0 && h != [] ==> Tail(h, n) != [] && Tail(h, n)[|Tail(h, n)| - 1] == h[|h| - 1]
    ensures |Tail(h, n)| <= n && (Tail(h, n) != [] ==> h != [] && n > 0)
  {
  }

  /**
   Our commits as they are on HEAD: of the last `depth` commits those with a patch of ours, in
   order, and of these the newest, as many as there were patches to look for.
   */
  function LandedOn(head: History, created: History, depth: nat): History {
    Tail(Ours(Tail(head, depth), created), |Patches(created)|)
  }

  method FindLanded(head: History, created: History, depth: nat) returns (found: History)
    ensures found == LandedOn(head, created, depth)
  {
    hide Ours, InSeries, Patches;
    found := [];
    var wanted := Patches(created);
    if wanted == {} {
      OursAre(Tail(head, depth), created);
      return;
    }
    var k := |head|;
    ghost var lo := |head| - |Tail(head, depth)|;
    OursOfNone(head, created);
    while k > 0 && |head| - k < depth
      invariant lo <= k <= |head| && |head| - k <= depth
      invariant |found| < |wanted| && found == Ours(head[k..], created)
    {
      k := k - 1;
      OursOneMore(head, created, k);
      OursFrom(head, created, lo, k);
      WantedIsOurs(head[k], created);
      if head[k].patch in wanted {
        found := [head[k]] + found;
        if |found| == |wanted| { return; }
      }
    }
  }

  lemma WantedIsOurs(c: Commit, created: History)
    ensures c.patch in Patches(created) <==> InSeries(c, created)
  {
    if InSeries(c, created) {
      var m :| m in created && SamePatch(c, m);
      assert m.patch in Patches(created);
    }
  }

  lemma OursOfNone(head: History, created: History)
    ensures Ours(head[|head|..], created) == []
  {
  }

  lemma {:induction false} OursAre(h: History, created: History)
    ensures forall c :: c in Ours(h, created) <==> c in h && InSeries(c, created)
    ensures Patches(created) == {} ==> Ours(h, created) == []
    decreases |h|
  {
    if h != [] {
      OursAre(h[..|h| - 1], created);
      WantedIsOurs(h[|h| - 1], created);
      assert h == h[..|h| - 1] + [h[|h| - 1]];
    }
  }

  /** Everything found is on HEAD with a patch of ours. */
  lemma LandedAreOurs(head: History, created: History, depth: nat)
    ensures forall c | c in LandedOn(head, created, depth) :: c in head && InSeries(c, created)
  {
    hide InSeries, Ours, Patches, Tail;
    OursAre(Tail(head, depth), created);
    TailIsPart(head, depth);
    TailIsPart(Ours(Tail(head, depth), created), |Patches(created)|);
  }

  /** Something is found exactly when one of the last `depth` commits has a patch of ours. */
  lemma SomethingLanded(head: History, created: History, depth: nat)
    ensures LandedOn(head, created, depth) != [] <==> exists c | c in Tail(head, depth) :: InSeries(c, created)
  {
    hide InSeries, Ours, Tail, Patches;
    var window := Tail(head, depth);
    var ours := Ours(window, created);
    OursAre(window, created);
    TailIsPart(ours, |Patches(created)|);
    forall c | c in window && InSeries(c, created) ensures ours != [] && |Patches(created)| > 0 {
      WantedIsOurs(c, created);
      assert c in ours;
    }
    if ours != [] {
      assert ours[0] in ours;
    }
  }

  /** One commit is found as the newest one that has its patch. */
  lemma OneLandsAsNewest(head: History, c: Commit, depth: nat)
    requires LandedOn(head, [c], depth) != []
    ensures |LandedOn(head, [c], depth)| == 1 && IsNewest(head, [c], LandedOn(head, [c], depth)[0])
  {
    hide InSeries, Ours, Patches, Tail;
    var window := Tail(head, depth);
    var ours := Ours(window, [c]);
    OnePatch(c);
    TailIsPart(ours, |Patches([c])|);
    NewestOfOurs(window, [c]);
    NewestOfTail(head, depth, [c], ours[|ours| - 1]);
  }

  lemma OnePatch(c: Commit)
    ensures |Patches([c])| <= 1
  {
    assert Patches([c]) == if c.patch.Some? then {c.patch} else {};
  }

  lemma NewestOfTail(head: History, depth: nat, created: History, c: Commit)
    requires IsNewest(Tail(head, depth), created, c)
    ensures IsNewest(head, created, c)
  {
    hide InSeries;
    var window := Tail(head, depth);
    var below := |head| - |window|;
    var k :| 0 <= k < |window| && window[k] == c && InSeries(c, created) && forall j | k < j < |window| ::
      !InSeries(window[j], created);
    assert head[below + k] == c;
    forall j | below + k < j < |head| ensures !InSeries(head[j], created) {
      assert head[j] == window[j - below];
    }
  }

  lemma {:induction false} NewestOfOurs(h: History, created: History)
    requires Ours(h, created) != []
    ensures var ours := Ours(h, created); IsNewest(h, created, ours[|ours| - 1])
    decreases |h|
  {
    hide InSeries;
    var n := |h| - 1;
    if !InSeries(h[n], created) {
      NewestOfOurs(h[..n], created);
      var ours := Ours(h[..n], created);
      assert Ours(h, created) == ours;
      var k :| 0 <= k < n && h[..n][k] == ours[|ours| - 1] && InSeries(h[..n][k], created)
        && forall j | k < j < n :: !InSeries(h[..n][j], created);
      assert h[k] == h[..n][k];
      forall j | k < j < |h| ensures !InSeries(h[j], created) {
        assert j < n ==> h[j] == h[..n][j];
      }
    }
  }

  predicate InSeries(c: Commit, created: History) {
    exists m | m in created :: SamePatch(c, m)
  }

  predicate IsNewest(head: History, created: History, c: Commit) {
    exists k | 0 <= k < |head| ::
      head[k] == c && InSeries(c, created) && forall j | k < j < |head| :: !InSeries(head[j], created)
  }

  // ------------------------------------------------------------ already on master?

  predicate IsOnMaster(found: Commit, c: Commit, remembered: Option<Commit>, span: History) {
    && SamePatch(c, found)
    && (remembered == Some(found) ||
      (IsSpecificSubject(c.subject) && found in span && Contains(found.message, c.subject)))
  }

  ghost predicate NotOnMaster(c: Commit, remembered: Option<Commit>, span: History) {
    forall u :: !IsOnMaster(u, c, remembered, span)
  }

  /** The first of `candidates` that has c's patch. */
  function FirstSamePatch(c: Commit, candidates: History): (found: Option<Commit>)
    ensures found.Some? ==> found.value in candidates && SamePatch(c, found.value)
    ensures found == None ==> forall u | u in candidates :: !SamePatch(c, u)
  {
    if candidates == [] then None
    else if SamePatch(c, candidates[0]) then Some(candidates[0])
    else FirstSamePatch(c, candidates[1..])
  }

  function Mentioning(span: History, subject: string): (hits: History)
    ensures forall u :: u in hits <==> u in span && Contains(u.message, subject)
  {
    if span == [] then []
    else (if Contains(span[0].message, subject) then [span[0]] else []) + Mentioning(span[1..], subject)
  }

  /** Everything c could be on master as: the remembered commit first, then same-subject ones. */
  function MasterCandidates(c: Commit, remembered: Option<Commit>, span: History): History {
    (match remembered case Some(m) => [m] case None => [])
    + (if IsSpecificSubject(c.subject) then Mentioning(span, c.subject) else [])
  }

  function Counterpart(c: Commit, remembered: Option<Commit>, span: History): (found: Option<Commit>)
    ensures found.Some? ==> IsOnMaster(found.value, c, remembered, span)
    ensures found == None ==> NotOnMaster(c, remembered, span)
  {
    FirstSamePatch(c, MasterCandidates(c, remembered, span))
  }

  /** The series as it exists on master, or nothing unless every commit of it is found. */
  function OnMaster(series: History, remembered: Option<Commit>, span: History): (found: History)
    ensures found == [] || |found| == |series|
    ensures forall i | 0 <= i < |found| :: IsOnMaster(found[i], series[i], remembered, span)
    ensures found == [] && series != [] ==> exists c | c in series :: NotOnMaster(c, remembered, span)
  {
    if forall i | 0 <= i < |series| :: Counterpart(series[i], remembered, span).Some? then
      seq(|series|, i requires 0 <= i < |series| && Counterpart(series[i], remembered, span).Some? =>
        Counterpart(series[i], remembered, span).value)
    else
      []
  }

  method OnMasterAlready(series: History, remembered: Option<Commit>, span: History) returns (found: History)
    ensures found == OnMaster(series, remembered, span)
  {
    hide Counterpart, IsOnMaster, NotOnMaster;
    found := [];
    for i := 0 to |series|
      invariant |found| <= i
      invariant |found| == i ==> forall j | 0 <= j < i :: Counterpart(series[j], remembered, span) == Some(found[j])
      invariant |found| < i ==> exists j | 0 <= j < i :: Counterpart(series[j], remembered, span) == None
    {
      match Counterpart(series[i], remembered, span)
      case Some(u) => found := found + [u];
      case None =>
    }
    if |found| != |series| { found := []; }
  }
}
