/**
 backends/poller.py poll_project: reap, then one pass over the listing that refreshes,
 skips or fails each pull request, and gives up after a run of failures.
 */
module Poller {
  import opened Wrappers
  import opened PullRequests
  import opened Listing

  const MAX_CONSECUTIVE_FAILURES := 5

  /**
   How a refresh goes: it saves what the calls found, or it raises, before or after the
   listing was committed, with a database that takes the rewind or refuses it too.
   */
  datatype Refresh =
    | Completes(files: Option<seq<string>>, detail: Detail, at: int)
    | Raises(files: Option<seq<string>>, committed: bool, rewound: bool)

  // ------------------------------------------------------------ one pass, as a function

  datatype Cycle = Cycle(
    rows: map<int, Row>,
    refreshed: seq<int>,
    skipped: seq<int>,
    failed: seq<int>,
    streak: nat,
    done: nat,
    gaveUp: bool)

  function RowOf(rows: map<int, Row>, n: int): Option<Row> {
    if n in rows then Some(rows[n]) else None
  }

  /** The snapshot taken before the pass; an entry without a number is never in it. */
  function KnownRow(known: map<int, Row>, n: int): Option<Row> {
    if n != 0 then RowOf(known, n) else None
  }

  function NumbersOf(listing: seq<Listed>): seq<int> {
    seq(|listing|, i requires 0 <= i < |listing| => listing[i].number)
  }

  /** The first entry equal to this one. */
  function IndexOf(listing: seq<Listed>, p: Listed): (i: nat)
    requires p in listing
    ensures i < |listing| && listing[i] == p
    ensures forall j | 0 <= j < i :: listing[j] != p
  {
    if listing[0] == p then 0 else 1 + IndexOf(listing[1..], p)
  }

  function Upserted(rows: map<int, Row>, p: Listed, files: Option<seq<string>>): map<int, Row> {
    rows[p.number := Upsert(RowOf(rows, p.number), p, files)]
  }

  function Rewound(rows: map<int, Row>, n: int, known: Option<Row>): map<int, Row> {
    if known == None || n !in rows then rows else rows[n := Rewind(rows[n], known.value)]
  }

  function Saved(rows: map<int, Row>, p: Listed, r: Refresh): map<int, Row>
    requires r.Completes?
  {
    rows[p.number := Complete(Upsert(RowOf(rows, p.number), p, r.files), r.detail, r.at)]
  }

  function Failed(rows: map<int, Row>, p: Listed, r: Refresh, known: Option<Row>): map<int, Row>
    requires r.Raises?
  {
    var t := if r.committed then Upserted(rows, p, r.files) else rows;
    if r.rewound then Rewound(t, p.number, known) else t
  }

  function OnePr(c: Cycle, known: map<int, Row>, listing: seq<Listed>, i: nat, hours: int, now: int, r: Refresh): Cycle
    requires i < |listing|
  {
    var p := listing[i];
    var k := KnownRow(known, p.number);
    if !NeedsRefresh(k, p, hours, now) then
      c.(skipped := c.skipped + [p.number], streak := 0, done := i + 1)
    else if r.Completes? then
      c.(rows := Saved(c.rows, p, r), refreshed := c.refreshed + [p.number], streak := 0, done := i + 1)
    else
      var d := c.(rows := Failed(c.rows, p, r, k), failed := c.failed + [p.number], streak := c.streak + 1,
        done := i + 1);
      if d.streak < MAX_CONSECUTIVE_FAILURES then d
      else d.(skipped := d.skipped + NumbersOf(listing[IndexOf(listing, p) + 1..]), gaveUp := true)
  }

  /** The pass after entry i: clock[i] is the time of the i-th decision, going[i] how its refresh goes. */
  function UpTo(known: map<int, Row>, listing: seq<Listed>, i: nat, hours: int, clock: seq<int>,
      going: seq<Refresh>): Cycle
    requires i <= |listing| == |clock| == |going|
  {
    if i == 0 then Cycle(known, [], [], [], 0, 0, false)
    else
      var c := UpTo(known, listing, i - 1, hours, clock, going);
      if c.gaveUp then c else OnePr(c, known, listing, i - 1, hours, clock[i - 1], going[i - 1])
  }

  function Pass(known: map<int, Row>, listing: seq<Listed>, hours: int, clock: seq<int>, going: seq<Refresh>): Cycle
    requires |listing| == |clock| == |going|
  {
    UpTo(known, listing, |listing|, hours, clock, going)
  }

  // ------------------------------------------------------------ every pull request is accounted for

  ghost predicate DistinctNumbers(listing: seq<Listed>) {
    forall i, j | 0 <= i < j < |listing| :: listing[i].number != listing[j].number
  }

  lemma {:induction false} GivenUpStays(known: map<int, Row>, listing: seq<Listed>, i: nat, n: nat, hours: int,
      clock: seq<int>, going: seq<Refresh>)
    requires i <= n <= |listing| == |clock| == |going| && UpTo(known, listing, i, hours, clock, going).gaveUp
    ensures UpTo(known, listing, n, hours, clock, going) == UpTo(known, listing, i, hours, clock, going)
    decreases n
  {
    hide OnePr;
    if i < n {
      GivenUpStays(known, listing, i, n - 1, hours, clock, going);
    }
  }

  lemma {:induction false} DoneSoFar(known: map<int, Row>, listing: seq<Listed>, i: nat, hours: int, clock: seq<int>,
      going: seq<Refresh>)
    requires i <= |listing| == |clock| == |going|
    ensures var c := UpTo(known, listing, i, hours, clock, going);
      c.done <= i && (!c.gaveUp ==> c.done == i && c.streak < MAX_CONSECUTIVE_FAILURES)
    decreases i
  {
    hide NeedsRefresh, Failed, Saved;
    if i > 0 {
      DoneSoFar(known, listing, i - 1, hours, clock, going);
    }
  }

  function Counted(c: Cycle): multiset<int> {
    multiset(c.refreshed) + multiset(c.skipped) + multiset(c.failed)
  }

  lemma NumbersOfFront(listing: seq<Listed>, i: nat)
    requires i < |listing|
    ensures NumbersOf(listing[..i + 1]) == NumbersOf(listing[..i]) + [listing[i].number]
    ensures NumbersOf(listing) == NumbersOf(listing[..i + 1]) + NumbersOf(listing[i + 1..])
  {
  }

  lemma CountedOne(c: Cycle, known: map<int, Row>, listing: seq<Listed>, i: nat, hours: int, now: int, r: Refresh)
    requires i < |listing| && DistinctNumbers(listing) && !c.gaveUp
    ensures var d := OnePr(c, known, listing, i, hours, now, r);
      Counted(d) == Counted(c) + multiset([listing[i].number]) +
        multiset(if d.gaveUp then NumbersOf(listing[i + 1..]) else [])
  {
    hide NeedsRefresh, Failed, Saved, NumbersOf;
    assert IndexOf(listing, listing[i]) == i;
  }

  lemma NothingCounted(known: map<int, Row>, listing: seq<Listed>)
    ensures Counted(Cycle(known, [], [], [], 0, 0, false)) == multiset(NumbersOf(listing[..0]))
  {
  }

  lemma {:induction false} CountedUpTo(known: map<int, Row>, listing: seq<Listed>, i: nat, hours: int,
      clock: seq<int>, going: seq<Refresh>)
    requires i <= |listing| == |clock| == |going| && DistinctNumbers(listing)
    ensures var c := UpTo(known, listing, i, hours, clock, going);
      Counted(c) == multiset(if c.gaveUp then NumbersOf(listing) else NumbersOf(listing[..i]))
    decreases i
  {
    hide OnePr, NumbersOf, Counted, DistinctNumbers;
    if i == 0 {
      NothingCounted(known, listing);
    } else {
      var c := UpTo(known, listing, i - 1, hours, clock, going);
      CountedUpTo(known, listing, i - 1, hours, clock, going);
      NumbersOfFront(listing, i - 1);
      if !c.gaveUp {
        CountedOne(c, known, listing, i - 1, hours, clock[i - 1], going[i - 1]);
      }
    }
  }

  /** Refreshed, skipped or failed: every listed number is in exactly one, also when the pass gives up. */
  lemma EveryPrOnce(known: map<int, Row>, listing: seq<Listed>, hours: int, clock: seq<int>, going: seq<Refresh>,
      j: nat)
    requires j < |listing| == |clock| == |going| && DistinctNumbers(listing)
    ensures var c := Pass(known, listing, hours, clock, going); var n := listing[j].number;
      && Counted(c) == multiset(NumbersOf(listing))
      && ((n in c.refreshed && n !in c.skipped && n !in c.failed)
          || (n !in c.refreshed && n in c.skipped && n !in c.failed)
          || (n !in c.refreshed && n !in c.skipped && n in c.failed))
  {
    hide UpTo, OnePr;
    var c, n := Pass(known, listing, hours, clock, going), listing[j].number;
    CountedUpTo(known, listing, |listing|, hours, clock, going);
    assert listing[..|listing|] == listing;
    OnceInListing(listing, j);
    assert Counted(c)[n] == 1;
    assert Counted(c)[n] == multiset(c.refreshed)[n] + multiset(c.skipped)[n] + multiset(c.failed)[n];
    assert n in c.refreshed <==> multiset(c.refreshed)[n] > 0;
    assert n in c.skipped <==> multiset(c.skipped)[n] > 0;
    assert n in c.failed <==> multiset(c.failed)[n] > 0;
  }

  lemma OnceInListing(listing: seq<Listed>, j: nat)
    requires j < |listing| && DistinctNumbers(listing)
    ensures multiset(NumbersOf(listing))[listing[j].number] == 1
  {
    var a, b := NumbersOf(listing[..j]), NumbersOf(listing[j + 1..]);
    NumbersOfFront(listing, j);
    assert NumbersOf(listing) == a + [listing[j].number] + b;
    forall i | 0 <= i < |a| ensures a[i] != listing[j].number {
    }
    forall i | 0 <= i < |b| ensures b[i] != listing[j].number {
      assert b[i] == listing[j + 1 + i].number;
    }
  }

  /** Skips before the pass gave up. */
  function SkippedInPassing(c: Cycle, listing: seq<Listed>): int {
    if c.gaveUp then |c.skipped| - (|listing| - c.done) else |c.skipped|
  }

  ghost predicate FailuresBounded(c: Cycle, listing: seq<Listed>) {
    var passing := SkippedInPassing(c, listing);
    && passing >= 0 && c.streak <= 5
    && |c.failed| <= 4 * (|c.refreshed| + passing) + c.streak
    && |c.refreshed| + |c.failed| + passing == c.done
  }

  lemma OneFailureBounded(c: Cycle, known: map<int, Row>, listing: seq<Listed>, i: nat, hours: int, now: int,
      r: Refresh)
    requires i < |listing| && DistinctNumbers(listing) && !c.gaveUp && c.done == i && c.streak <= 4 &&
      FailuresBounded(c, listing)
    ensures FailuresBounded(OnePr(c, known, listing, i, hours, now, r), listing)
  {
    hide NeedsRefresh, Failed, Saved;
    assert IndexOf(listing, listing[i]) == i by { hide OnePr; }
  }

  lemma {:induction false} FailuresUpTo(known: map<int, Row>, listing: seq<Listed>, i: nat, hours: int,
      clock: seq<int>, going: seq<Refresh>)
    requires i <= |listing| == |clock| == |going| && DistinctNumbers(listing)
    ensures FailuresBounded(UpTo(known, listing, i, hours, clock, going), listing)
    decreases i
  {
    hide OnePr, FailuresBounded;
    if i == 0 {
      NoFailures(known, listing);
    } else {
      var c := UpTo(known, listing, i - 1, hours, clock, going);
      FailuresUpTo(known, listing, i - 1, hours, clock, going);
      DoneSoFar(known, listing, i - 1, hours, clock, going);
      if !c.gaveUp {
        OneFailureBounded(c, known, listing, i - 1, hours, clock[i - 1], going[i - 1]);
      }
    }
  }

  lemma NoFailures(known: map<int, Row>, listing: seq<Listed>)
    ensures FailuresBounded(Cycle(known, [], [], [], 0, 0, false), listing)
  {
  }

  /** A project that fails everything costs five refreshes; otherwise four failures for each success or skip. */
  lemma FailureBound(known: map<int, Row>, listing: seq<Listed>, hours: int, clock: seq<int>, going: seq<Refresh>)
    requires |listing| == |clock| == |going| && DistinctNumbers(listing)
    ensures var c := Pass(known, listing, hours, clock, going);
      |c.failed| <= 4 * (|c.refreshed| + SkippedInPassing(c, listing)) + 5
  {
    FailuresUpTo(known, listing, |listing|, hours, clock, going);
  }

  // ------------------------------------------------------------ which ones are refreshed

  /**
   A pull request is to be refreshed: it is new, its row was never finished, either timestamp is
   missing or they differ, anything the listing shows is not as stored, or one of its clocks has
   run out -- the project's own, one hour for the operator's own pull requests and for those
   about to be merged, six for those whose CI is running.
   */
  ghost predicate Wanted(known: map<int, Row>, p: Listed, hours: int, now: int) {
    || hours <= 0 || p.number == 0 || p.number !in known
    || var r := known[p.number];
       || r.baseSha == "" || !r.scored
       || p.updatedAt == None || r.updatedAt == None || r.updatedAt.value != p.updatedAt.value
       || r.title != p.title || r.body != p.body || r.state != p.state || r.isDraft != p.isDraft
       || r.labels != p.labels || r.reviewers != p.reviewers || r.assignees != p.assignees
       || (p.headSha != "" && p.headSha != r.headSha)
       || r.lastPolled == None
       || var age := now - r.lastPolled.value;
          || age >= hours * 3_600_000_000
          || (age >= 3_600_000_000 && (r.isOperatorPr || r.verdict == "ready" || r.verdict == "flaky-ci"
              || r.rebaseRequestedSha != ""))
          || (age >= 6 * 3_600_000_000 && r.ciStatus == "pending")
  }

  lemma WantedIsNeeded(known: map<int, Row>, p: Listed, hours: int, now: int)
    ensures Wanted(known, p, hours, now) <==> NeedsRefresh(KnownRow(known, p.number), p, hours, now)
  {
    if hours > 0 && p.number != 0 && p.number in known && known[p.number].lastPolled.Some? {
      DueExactlyWhen(known[p.number], hours, now - known[p.number].lastPolled.value);
    }
  }

  /** Every entry dealt with so far is where its own need and its own refresh put it. */
  ghost predicate Placed(c: Cycle, known: map<int, Row>, listing: seq<Listed>, hours: int, clock: seq<int>,
      going: seq<Refresh>)
    requires |listing| == |clock| == |going|
  {
    && c.done <= |listing|
    && (forall j | 0 <= j < c.done ::
          var needed := NeedsRefresh(KnownRow(known, listing[j].number), listing[j], hours, clock[j]);
          listing[j].number in (if !needed then c.skipped else if going[j].Completes? then c.refreshed else c.failed))
    && (c.gaveUp ==> forall j | c.done <= j < |listing| :: listing[j].number in c.skipped)
  }

  lemma PlacedOne(c: Cycle, known: map<int, Row>, listing: seq<Listed>, i: nat, hours: int, clock: seq<int>,
      going: seq<Refresh>)
    requires i < |listing| == |clock| == |going| && DistinctNumbers(listing) && !c.gaveUp && c.done == i
    requires Placed(c, known, listing, hours, clock, going)
    ensures Placed(OnePr(c, known, listing, i, hours, clock[i], going[i]), known, listing, hours, clock, going)
  {
    hide NeedsRefresh, Failed, Saved, KnownRow;
    var rest := NumbersOf(listing[i + 1..]);
    assert IndexOf(listing, listing[i]) == i by { hide OnePr; }
    forall j | i < j < |listing| ensures listing[j].number in rest {
      assert rest[j - i - 1] == listing[j].number;
    }
  }

  lemma {:induction false} PlacedUpTo(known: map<int, Row>, listing: seq<Listed>, i: nat, hours: int,
      clock: seq<int>, going: seq<Refresh>)
    requires i <= |listing| == |clock| == |going| && DistinctNumbers(listing)
    ensures var c := UpTo(known, listing, i, hours, clock, going);
      Placed(c, known, listing, hours, clock, going) && (!c.gaveUp ==> c.done == i)
    decreases i
  {
    hide OnePr, Placed;
    DoneSoFar(known, listing, i, hours, clock, going);
    if i == 0 {
      NonePlaced(known, listing, hours, clock, going);
    } else {
      var c := UpTo(known, listing, i - 1, hours, clock, going);
      PlacedUpTo(known, listing, i - 1, hours, clock, going);
      if !c.gaveUp {
        PlacedOne(c, known, listing, i - 1, hours, clock, going);
      }
    }
  }

  lemma NonePlaced(known: map<int, Row>, listing: seq<Listed>, hours: int, clock: seq<int>, going: seq<Refresh>)
    requires |listing| == |clock| == |going|
    ensures Placed(Cycle(known, [], [], [], 0, 0, false), known, listing, hours, clock, going)
  {
  }

  /**
   Every entry reached is refreshed, or fails at it, exactly when it is to be refreshed, and is
   skipped otherwise; what comes after the pass gave up is skipped.
   */
  lemma RefreshedExactlyWhen(known: map<int, Row>, listing: seq<Listed>, hours: int, clock: seq<int>,
      going: seq<Refresh>, j: nat)
    requires j < |listing| == |clock| == |going| && DistinctNumbers(listing)
    ensures var c := Pass(known, listing, hours, clock, going); var n := listing[j].number;
      && (!c.gaveUp ==> c.done == |listing|)
      && (j < c.done ==>
            && (n in c.refreshed || n in c.failed <==> Wanted(known, listing[j], hours, clock[j]))
            && (n in c.refreshed ==> going[j].Completes?) && (n in c.failed ==> going[j].Raises?)
            && (n in c.skipped <==> !Wanted(known, listing[j], hours, clock[j])))
      && (j >= c.done ==> n in c.skipped)
  {
    hide UpTo, NeedsRefresh, Wanted, KnownRow;
    PlacedUpTo(known, listing, |listing|, hours, clock, going);
    EveryPrOnce(known, listing, hours, clock, going, j);
    WantedIsNeeded(known, listing[j], hours, clock[j]);
  }

  /** The entry is to be refreshed, and its refresh raises. */
  ghost predicate Fails(known: map<int, Row>, listing: seq<Listed>, hours: int, clock: seq<int>, going: seq<Refresh>,
      j: nat)
    requires j < |listing| == |clock| == |going|
  {
    Wanted(known, listing[j], hours, clock[j]) && going[j].Raises?
  }

  /** Five entries in a row fail, from the k-th on. */
  ghost predicate FiveFail(known: map<int, Row>, listing: seq<Listed>, hours: int, clock: seq<int>,
      going: seq<Refresh>, k: nat)
    requires |listing| == |clock| == |going|
  {
    k + 5 <= |listing| && forall j | k <= j < k + 5 :: Fails(known, listing, hours, clock, going, j)
  }

  /** The streak is the run of failures just behind; five of them, for the first time, end the pass. */
  ghost predicate StreakIs(c: Cycle, known: map<int, Row>, listing: seq<Listed>, hours: int, clock: seq<int>,
      going: seq<Refresh>)
    requires |listing| == |clock| == |going|
  {
    && c.streak <= c.done <= |listing|
    && (forall j | c.done - c.streak <= j < c.done :: Fails(known, listing, hours, clock, going, j))
    && (c.streak < c.done && !c.gaveUp ==> !Fails(known, listing, hours, clock, going, c.done - c.streak - 1))
    && (c.gaveUp <==> c.streak == 5) && c.streak <= 5
    && (forall k: nat | k + 5 <= c.done - (if c.gaveUp then 1 else 0) ::
          !FiveFail(known, listing, hours, clock, going, k))
  }

  lemma StreakOne(c: Cycle, known: map<int, Row>, listing: seq<Listed>, i: nat, hours: int, clock: seq<int>,
      going: seq<Refresh>)
    requires i < |listing| == |clock| == |going| && !c.gaveUp && c.done == i
    requires StreakIs(c, known, listing, hours, clock, going)
    ensures StreakIs(OnePr(c, known, listing, i, hours, clock[i], going[i]), known, listing, hours, clock, going)
  {
    hide NeedsRefresh, Failed, Saved, KnownRow, Wanted;
    WantedIsNeeded(known, listing[i], hours, clock[i]);
    var d := OnePr(c, known, listing, i, hours, clock[i], going[i]);
    assert d.done == i + 1 && (d.streak == 0 <==> !Fails(known, listing, hours, clock, going, i));
    assert d.streak > 0 ==> d.streak == c.streak + 1;
    hide OnePr;
    if i >= 4 && FiveFail(known, listing, hours, clock, going, i - 4) {
      assert Fails(known, listing, hours, clock, going, i);
      assert d.streak == 5;
    }
  }

  lemma NoStreak(known: map<int, Row>, listing: seq<Listed>, hours: int, clock: seq<int>, going: seq<Refresh>)
    requires |listing| == |clock| == |going|
    ensures StreakIs(Cycle(known, [], [], [], 0, 0, false), known, listing, hours, clock, going)
  {
  }

  lemma {:induction false} StreakUpTo(known: map<int, Row>, listing: seq<Listed>, i: nat, hours: int,
      clock: seq<int>, going: seq<Refresh>)
    requires i <= |listing| == |clock| == |going|
    ensures StreakIs(UpTo(known, listing, i, hours, clock, going), known, listing, hours, clock, going)
    decreases i
  {
    hide OnePr, StreakIs;
    if i == 0 {
      NoStreak(known, listing, hours, clock, going);
    } else {
      var c := UpTo(known, listing, i - 1, hours, clock, going);
      StreakUpTo(known, listing, i - 1, hours, clock, going);
      DoneSoFar(known, listing, i - 1, hours, clock, going);
      if !c.gaveUp {
        StreakOne(c, known, listing, i - 1, hours, clock, going);
      }
    }
  }

  /** The pass gives up exactly when five entries in a row fail, and right behind the first five that do. */
  lemma GivesUpExactlyWhen(known: map<int, Row>, listing: seq<Listed>, hours: int, clock: seq<int>,
      going: seq<Refresh>)
    requires |listing| == |clock| == |going|
    ensures var c := Pass(known, listing, hours, clock, going);
      && (c.gaveUp <==> exists k: nat :: FiveFail(known, listing, hours, clock, going, k))
      && (c.gaveUp ==>
            && c.done >= 5 && FiveFail(known, listing, hours, clock, going, c.done - 5)
            && forall k: nat | k < c.done - 5 :: !FiveFail(known, listing, hours, clock, going, k))
  {
    hide UpTo, Fails;
    DoneSoFar(known, listing, |listing|, hours, clock, going);
    StreakUpTo(known, listing, |listing|, hours, clock, going);
    var c := Pass(known, listing, hours, clock, going);
    if c.gaveUp {
      assert FiveFail(known, listing, hours, clock, going, c.done - 5);
    }
  }

  // ------------------------------------------------------------ what becomes of a row

  function RowAfter(k: Option<Row>, p: Listed, hours: int, now: int, r: Refresh): Option<Row> {
    if !NeedsRefresh(k, p, hours, now) then k
    else match r
      case Completes(files, detail, at) => Some(Complete(Upsert(k, p, files), detail, at))
      case Raises(files, committed, rewound) =>
        match k
        case None => if committed then Some(Upsert(None, p, files)) else None
        case Some(row) => Some(AfterFailure(row, p, files, committed, rewound))
  }

  /** One entry touches its own row only, and does to it what RowAfter says. */
  lemma OneRow(c: Cycle, known: map<int, Row>, listing: seq<Listed>, i: nat, hours: int, now: int, r: Refresh, n: int)
    requires i < |listing| && n != 0
    requires listing[i].number == n ==> RowOf(c.rows, n) == RowOf(known, n)
    ensures RowOf(OnePr(c, known, listing, i, hours, now, r).rows, n) ==
      if listing[i].number == n then RowAfter(RowOf(known, n), listing[i], hours, now, r) else RowOf(c.rows, n)
  {
    hide NeedsRefresh, Upsert, Complete, Rewind;
  }

  lemma {:induction false} RowsUpTo(known: map<int, Row>, listing: seq<Listed>, i: nat, hours: int, clock: seq<int>,
      going: seq<Refresh>, n: int)
    requires i <= |listing| == |clock| == |going| && DistinctNumbers(listing) && n != 0
    ensures UpTo(known, listing, i, hours, clock, going).done <= i
    ensures RowIs(UpTo(known, listing, i, hours, clock, going), known, listing, hours, clock, going, n)
    decreases i
  {
    hide RowIs, OnePr;
    DoneSoFar(known, listing, i, hours, clock, going);
    if i == 0 {
      RowAtStart(known, listing, hours, clock, going, n);
    } else {
      var c := UpTo(known, listing, i - 1, hours, clock, going);
      RowsUpTo(known, listing, i - 1, hours, clock, going, n);
      DoneSoFar(known, listing, i - 1, hours, clock, going);
      if !c.gaveUp {
        RowAfterOne(c, known, listing, i - 1, hours, clock, going, n);
      }
    }
  }

  /** Row n is what its entry made of it, or, if no entry done so far is for n, what it was. */
  ghost predicate RowIs(c: Cycle, known: map<int, Row>, listing: seq<Listed>, hours: int, clock: seq<int>,
      going: seq<Refresh>, n: int)
    requires c.done <= |listing| == |clock| == |going|
  {
    && (forall j | 0 <= j < c.done && listing[j].number == n ::
          RowOf(c.rows, n) == RowAfter(RowOf(known, n), listing[j], hours, clock[j], going[j]))
    && ((forall j | 0 <= j < c.done :: listing[j].number != n) ==> RowOf(c.rows, n) == RowOf(known, n))
  }

  lemma RowAtStart(known: map<int, Row>, listing: seq<Listed>, hours: int, clock: seq<int>, going: seq<Refresh>, n: int)
    requires |listing| == |clock| == |going|
    ensures RowIs(Cycle(known, [], [], [], 0, 0, false), known, listing, hours, clock, going, n)
  {
  }

  lemma DoneByOne(c: Cycle, known: map<int, Row>, listing: seq<Listed>, i: nat, hours: int, now: int, r: Refresh)
    requires i < |listing|
    ensures OnePr(c, known, listing, i, hours, now, r).done == i + 1
  {
    hide NeedsRefresh, Saved, Failed;
  }

  lemma RowAfterOne(c: Cycle, known: map<int, Row>, listing: seq<Listed>, i: nat, hours: int, clock: seq<int>,
      going: seq<Refresh>, n: int)
    requires i < |listing| == |clock| == |going| && DistinctNumbers(listing) && n != 0 && c.done == i
    requires RowIs(c, known, listing, hours, clock, going, n)
    ensures OnePr(c, known, listing, i, hours, clock[i], going[i]).done == i + 1
    ensures RowIs(OnePr(c, known, listing, i, hours, clock[i], going[i]), known, listing, hours, clock, going, n)
  {
    hide RowAfter, RowOf, OnePr;
    DoneByOne(c, known, listing, i, hours, clock[i], going[i]);
    OneRow(c, known, listing, i, hours, clock[i], going[i], n);
  }

  /** An entry the pass reached, whose refresh did not complete, and that lost nothing but a state change. */
  predicate MayDrop(k: Option<Row>, p: Listed, hours: int, now: int, r: Refresh) {
    match r
    case Completes(_, _, _) => true
    case Raises(_, committed, rewound) => committed && k.Some? && (!rewound || StateOnly(k.value, p, hours, now))
  }

  /**
   No pull request that needs a refresh stops needing it without one: after the pass every
   later poll of the same listing refreshes it, unless its refresh completed, the database
   refused the rewind, or the stored state was the only thing that differed.
   */
  lemma NeededStaysNeeded(known: map<int, Row>, listing: seq<Listed>, hours: int, clock: seq<int>,
      going: seq<Refresh>, j: nat, later: int)
    requires j < |listing| == |clock| == |going| && DistinctNumbers(listing)
    requires clock[j] <= later
    requires var p := listing[j]; p.number != 0 && NeedsRefresh(RowOf(known, p.number), p, hours, clock[j])
    ensures var c := Pass(known, listing, hours, clock, going); var p := listing[j];
      (j < c.done ==> !MayDrop(RowOf(known, p.number), p, hours, clock[j], going[j])) ==>
        NeedsRefresh(KnownRow(c.rows, p.number), p, hours, later)
  {
    hide UpTo, NeedsRefresh, StateOnly, AfterFailure, Upsert, Complete, Rewind;
    var c, p := Pass(known, listing, hours, clock, going), listing[j];
    var k := RowOf(known, p.number);
    RowsUpTo(known, listing, |listing|, hours, clock, going, p.number);
    if j >= c.done {
      assert forall i | 0 <= i < c.done :: listing[i].number != p.number;
      DueStaysDue(k, p, hours, clock[j], later);
    } else if !MayDrop(k, p, hours, clock[j], going[j]) {
      var r := going[j];
      FailedIsNeeded(k, p, hours, clock[j], r, later);
    }
  }

  lemma FailedIsNeeded(k: Option<Row>, p: Listed, hours: int, now: int, r: Refresh, later: int)
    requires NeedsRefresh(k, p, hours, now) && now <= later && !MayDrop(k, p, hours, now, r)
    ensures NeedsRefresh(RowAfter(k, p, hours, now, r), p, hours, later)
  {
    hide StateOnly, Upsert, Complete, Rewind;
    match k
    case None => NewRowIsRetried(p, r.files, hours, later);
    case Some(row) =>
      RetriedExactlyWhen(row, p, r.files, r.committed, hours, now);
      assert !r.committed ==> AfterFailure(row, p, r.files, false, r.rewound) == row by { RewindNothing(row); }
      if !r.committed { DueStaysDue(k, p, hours, now, later); }
  }

  lemma RewindNothing(r: Row)
    ensures Rewind(r, r) == r
  {
  }

  /** A completed refresh is not repeated on the same listing until its window lapses. */
  lemma CompletedIsSkipped(known: map<int, Row>, listing: seq<Listed>, hours: int, clock: seq<int>,
      going: seq<Refresh>, j: nat, later: int)
    requires j < |listing| == |clock| == |going| && DistinctNumbers(listing) && hours > 0
    requires listing[j].number != 0 && j < Pass(known, listing, hours, clock, going).done
    requires var p := listing[j]; NeedsRefresh(RowOf(known, p.number), p, hours, clock[j]) && going[j].Completes?
    requires !listing[j].scraped && listing[j].updatedAt.Some?
    ensures var c := Pass(known, listing, hours, clock, going); var p := listing[j];
      && p.number in c.rows
      && var row := c.rows[p.number];
         row.baseSha != "" && row.scored && (p.headSha != "" ==> row.headSha == p.headSha) ==>
           (NeedsRefresh(KnownRow(c.rows, p.number), p, hours, later) <==>
             later - going[j].at >= Window(row, hours) * HOUR)
  {
    hide UpTo, NeedsRefresh, Window;
    var p := listing[j];
    RowsUpTo(known, listing, |listing|, hours, clock, going, p.number);
    SkippedExactlyUntil(RowOf(known, p.number), p, going[j].files, going[j].detail, hours, going[j].at, later);
  }

  // ------------------------------------------------------------ the poller

  function Closed(rows: map<int, Row>, stale: set<int>): map<int, Row> {
    map n | n in rows :: if n in stale then rows[n].(state := "closed") else rows[n]
  }

  lemma ClosedAre(rows: map<int, Row>, listing: seq<Listed>)
    requires MayReap(listing, true, MAX_LISTED)
    ensures var stale := set n | n in rows && rows[n].state == "open" && n !in Numbers(listing);
      && Closed(rows, stale) == Reap(rows, listing, true, MAX_LISTED)
      && stale == set n | n in Closed(rows, stale) && Closed(rows, stale)[n] != rows[n]
  {
    hide Numbers, MayReap;
    var stale := set n | n in rows && rows[n].state == "open" && n !in Numbers(listing);
    assert "open"[0] == 'o' && "closed"[0] == 'c';
    forall n | n in rows ensures n in stale <==> Closed(rows, stale)[n] != rows[n] {
    }
  }

  class ProjectPoller {
    var rows: map<int, Row>
    const listsAll: bool

    constructor (listsAll: bool)
      ensures rows == map[] && this.listsAll == listsAll
    {
      rows := map[];
      this.listsAll := listsAll;
    }

    /** Close the open rows the listing does not hold, if it can be trusted to hold them all. */
    method CloseMissing(listing: seq<Listed>) returns (closed: nat)
      modifies this
      ensures rows == Reap(old(rows), listing, listsAll, MAX_LISTED)
      ensures closed == |set n | n in rows && rows[n] != old(rows)[n]|
    {
      ghost var was := rows;
      if !listsAll || |listing| == 0 || (exists i | 0 <= i < |listing| :: listing[i].scraped) ||
        |listing| >= MAX_LISTED {
        assert !MayReap(listing, listsAll, MAX_LISTED);
        assert (set n | n in rows && rows[n] != was[n]) == {};
        return 0;
      }
      var open := Numbers(listing);
      var stale := set n | n in rows && rows[n].state == "open" && n !in open;
      ClosedAre(was, listing);
      rows := Closed(rows, stale);
      return |stale|;
    }

    /** One refresh, as far as the row goes. */
    method RefreshPullRequest(p: Listed, going: Refresh) returns (done: bool)
      modifies this
      ensures done == going.Completes?
      ensures rows == if going.Completes? then Saved(old(rows), p, going)
                      else if going.committed then Upserted(old(rows), p, going.files) else old(rows)
    {
      match going {
        case Completes(files, detail, at) =>
          rows := Upserted(rows, p, files);
          rows := rows[p.number := Complete(rows[p.number], detail, at)];
          return true;
        case Raises(files, committed, _) =>
          if committed { rows := Upserted(rows, p, files); }
          return false;
      }
    }

    /** Undo what a failed refresh told the skip it had handled; a row that was not known needs nothing. */
    method RewindRefreshMarker(n: int, known: Option<Row>)
      modifies this
      ensures rows == Rewound(old(rows), n, known)
      ensures rows.Keys == old(rows).Keys && forall m | m in rows && m != n :: rows[m] == old(rows)[m]
      ensures n in rows ==>
        if known == None then rows[n] == old(rows)[n] else LooksAsKnown(rows[n], old(rows)[n], known.value)
    {
      hide LooksAsKnown, Rewind;
      if known == None { return; }
      if n in rows {
        RewindLooksAsKnown(rows[n], known.value);
        rows := rows[n := Rewind(rows[n], known.value)];
      }
    }

    /** Poll one project over its listing. */
    method PollProject(listing: seq<Listed>, hours: int, clock: seq<int>, going: seq<Refresh>)
        returns (refreshed: seq<int>, skipped: seq<int>, failed: seq<int>)
      requires |listing| == |clock| == |going|
      modifies this
      ensures
        var c := Pass(Reap(old(rows), listing, listsAll, MAX_LISTED), listing, hours, clock, going);
        rows == c.rows && refreshed == c.refreshed && skipped == c.skipped && failed == c.failed
    {
      hide NeedsRefresh, Reap, IndexOf, Rewound, Upserted, Saved, NumbersOf;
      var _ := CloseMissing(listing);
      var known := rows;
      refreshed, skipped, failed := [], [], [];
      var streak := 0;
      for i := 0 to |listing|
        invariant Cycle(rows, refreshed, skipped, failed, streak, i, false) ==
          UpTo(known, listing, i, hours, clock, going)
      {
        var p := listing[i];
        var k := KnownRow(known, p.number);
        if !NeedsRefresh(k, p, hours, clock[i]) {
          skipped := skipped + [p.number];
          streak := 0;
          continue;
        }
        var done := RefreshPullRequest(p, going[i]);
        if !done {
          if going[i].rewound {
            RewindRefreshMarker(p.number, k);
          }
          failed := failed + [p.number];
          streak := streak + 1;
          if streak >= MAX_CONSECUTIVE_FAILURES {
            var remaining := NumbersOf(listing[IndexOf(listing, p) + 1..]);
            skipped := skipped + remaining;
            GivenUpStays(known, listing, i + 1, |listing|, hours, clock, going);
            break;
          }
          continue;
        }
        streak := 0;
        refreshed := refreshed + [p.number];
      }
    }
  }
}
