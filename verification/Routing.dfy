/**
 The naming rules of tools/merge_branches.py: which markers come off a branch
 name, which release a trailing version pins it to, and which sibling cut owns a
 target.
 */
module Routing {
  import opened Wrappers

  const MARKERS: seq<string> := ["-aok", "-squashed"]
  const VERSIONS: seq<string> := ["master", "3.5", "4.0", "4.1", "4.2", "4.3", "4.x", "4x"]

  function TargetOf(version: string): string {
    if version == "master" then "master"
    else if version == "4x" then "branch-4.x"
    else "branch-" + version
  }

  predicate EndsWith(s: string, suffix: string) {
    |suffix| <= |s| && s[|s| - |suffix|..] == suffix
  }

  // ------------------------------------------------------------ markers

  /** The loop's guard: a marker comes off only when something is left of the name. */
  predicate ComesOff(s: string, marker: string) {
    marker != "" && |marker| < |s| && EndsWith(s, marker)
  }

  function Cut(s: string, marker: string): string {
    if ComesOff(s, marker) then s[..|s| - |marker|] else s
  }

  /** No listed marker can come off any more. */
  predicate Settled(s: string, strip: seq<string>) {
    forall i | 0 <= i < |strip| :: !ComesOff(s, strip[i])
  }

  /** What one pass over the marker list leaves. */
  function Sweep(s: string, strip: seq<string>): (t: string)
    ensures |t| <= |s|
    ensures |t| == |s| ==> t == s && Settled(s, strip)
    ensures Settled(s, strip) ==> t == s
  {
    if strip == [] then s
    else
      var rest := Sweep(Cut(s, strip[0]), strip[1..]);
      assert Cut(s, strip[0]) == s ==> !ComesOff(s, strip[0]);
      assert forall i | 0 < i < |strip| :: strip[i] == strip[1..][i - 1];
      rest
  }

  /** Passes repeated until one changes nothing. */
  function Logical(s: string, strip: seq<string>): (t: string)
    ensures Settled(t, strip)
    decreases |s|
  {
    var t := Sweep(s, strip);
    if |t| == |s| then s else Logical(t, strip)
  }

  lemma SweepStep(s: string, strip: seq<string>, i: nat)
    requires i < |strip|
    ensures Sweep(s, strip[i..]) == Sweep(Cut(s, strip[i]), strip[i + 1..])
  {
    assert strip[i..][1..] == strip[i + 1..];
  }

  lemma LogicalStep(s: string, strip: seq<string>)
    ensures Logical(Sweep(s, strip), strip) == Logical(s, strip)
    ensures Sweep(s, strip) == s ==> Logical(s, strip) == s
    ensures Sweep(s, []) == s
  {
  }

  method LogicalName(branch: string, strip: seq<string>) returns (name: string)
    ensures name == Logical(branch, strip)
  {
    hide Sweep, Logical, Settled, EndsWith;
    name := branch;
    var changed := true;
    while changed
      invariant Logical(name, strip) == Logical(branch, strip)
      invariant !changed ==> Logical(name, strip) == name
      decreases |name|, changed
    {
      changed := false;
      var before := name;
      for i := 0 to |strip|
        invariant Sweep(name, strip[i..]) == Sweep(before, strip)
        invariant if changed then |name| < |before| else name == before
      {
        SweepStep(name, strip, i);
        if ComesOff(name, strip[i]) {
          name := name[..|name| - |strip[i]|];
          changed := true;
        }
      }
      assert strip[|strip|..] == [];
      LogicalStep(name, strip);
      LogicalStep(before, strip);
    }
  }

  /** A name that is not settled, one marker shorter; the first listed one that fits. */
  function Shorter(s: string, strip: seq<string>): (t: string)
    requires !Settled(s, strip)
    ensures |t| < |s|
  {
    if ComesOff(s, strip[0]) then Cut(s, strip[0]) else
      assert !Settled(s, strip[1..]) by {
        var i :| 0 <= i < |strip| && ComesOff(s, strip[i]);
        assert strip[1..][i - 1] == strip[i];
      }
      Shorter(s, strip[1..])
  }

  /** `base` followed by any run of markers. */
  function WithMarkers(base: string, run: seq<string>): string {
    if run == [] then base else WithMarkers(base, run[..|run| - 1]) + run[|run| - 1]
  }

  ghost predicate MarkerRun(run: seq<string>, strip: seq<string>) {
    forall i | 0 <= i < |run| :: run[i] in strip
  }

  /** One marker at a time, without passes: the reference reading of marker stripping. */
  ghost function Peeled(s: string, strip: seq<string>): string
    decreases |s|
  {
    if Settled(s, strip) then s else Peeled(Shorter(s, strip), strip)
  }

  lemma LogicalIdempotent(s: string, strip: seq<string>)
    ensures Logical(Logical(s, strip), strip) == Logical(s, strip)
  {
    assert Settled(Logical(s, strip), strip);
  }

  // ------------------------------------------------------------ runs of markers

  /** The whole of `t` is listed markers, one after the other. */
  predicate IsRun(t: string, strip: seq<string>)
    decreases |t|
  {
    t == "" || exists i | 0 <= i < |strip| ::
      strip[i] != "" && EndsWith(t, strip[i]) && IsRun(t[..|t| - |strip[i]|], strip)
  }

  /** Where one marker is a proper tail of another, the rest of the longer one is a run of markers too. */
  predicate TailsAreRuns(strip: seq<string>) {
    forall i, j | 0 <= i < |strip| && 0 <= j < |strip| && strip[j] != "" && |strip[j]| < |strip[i]| &&
      EndsWith(strip[i], strip[j]) ::
      IsRun(strip[i][..|strip[i]| - |strip[j]|], strip)
  }

  ghost predicate SameMarkers(strip: seq<string>, other: seq<string>) {
    forall m :: m in strip <==> m in other
  }

  lemma OneMoreMarker(t: string, m: string, strip: seq<string>)
    requires IsRun(t, strip) && m in strip
    ensures IsRun(t + m, strip)
  {
    var i :| 0 <= i < |strip| && strip[i] == m;
    if m != "" {
      assert (t + m)[..|t + m| - |m|] == t && EndsWith(t + m, strip[i]);
    } else {
      assert t + m == t;
    }
  }

  lemma LastMarker(t: string, strip: seq<string>) returns (front: string, m: string)
    requires IsRun(t, strip) && t != ""
    ensures m in strip && m != "" && t == front + m && IsRun(front, strip)
  {
    var i :| 0 <= i < |strip| && strip[i] != "" && EndsWith(t, strip[i]) && IsRun(t[..|t| - |strip[i]|], strip);
    front, m := t[..|t| - |strip[i]|], strip[i];
  }

  lemma {:induction false} RunsTogether(t: string, u: string, strip: seq<string>)
    requires IsRun(t, strip) && IsRun(u, strip)
    ensures IsRun(t + u, strip)
    decreases |u|
  {
    hide IsRun;
    if u == "" {
      assert t + u == t;
    } else {
      var front, m := LastMarker(u, strip);
      RunsTogether(t, front, strip);
      OneMoreMarker(t + front, m, strip);
      assert t + front + m == t + u;
    }
  }

  lemma {:induction false} RunOfSameMarkers(t: string, strip: seq<string>, other: seq<string>)
    requires IsRun(t, strip) && SameMarkers(strip, other)
    ensures IsRun(t, other)
    decreases |t|
  {
    if t != "" {
      var i :| 0 <= i < |strip| && strip[i] != "" && EndsWith(t, strip[i]) && IsRun(t[..|t| - |strip[i]|], strip);
      RunOfSameMarkers(t[..|t| - |strip[i]|], strip, other);
      assert strip[i] in other;
      var j :| 0 <= j < |other| && other[j] == strip[i];
    }
  }

  lemma TailsOfSameMarkers(strip: seq<string>, other: seq<string>)
    requires TailsAreRuns(strip) && SameMarkers(strip, other)
    ensures TailsAreRuns(other)
  {
    hide IsRun, EndsWith;
    forall i, j | 0 <= i < |other| && 0 <= j < |other| && other[j] != "" && |other[j]| < |other[i]| &&
      EndsWith(other[i], other[j])
      ensures IsRun(other[i][..|other[i]| - |other[j]|], other)
    {
      assert other[i] in strip && other[j] in strip;
      var k, l :| 0 <= k < |strip| && 0 <= l < |strip| && strip[k] == other[i] && strip[l] == other[j];
      RunOfSameMarkers(other[i][..|other[i]| - |other[j]|], strip, other);
    }
  }

  // ------------------------------------------------------------ any marker may come off first

  lemma {:induction false} ShorterIsSomeCut(s: string, strip: seq<string>) returns (m: string)
    requires !Settled(s, strip)
    ensures m in strip && ComesOff(s, m) && Shorter(s, strip) == Cut(s, m)
    decreases |strip|
  {
    if ComesOff(s, strip[0]) {
      m := strip[0];
    } else {
      var i :| 0 <= i < |strip| && ComesOff(s, strip[i]);
      assert strip[1..][i - 1] == strip[i];
      m := ShorterIsSomeCut(s, strip[1..]);
    }
  }

  /** Of two markers that fit, the longer one ends in the shorter one. */
  lemma TwoThatFit(s: string, long: string, short: string)
    requires ComesOff(s, long) && ComesOff(s, short) && |short| <= |long|
    ensures EndsWith(long, short) && (|short| == |long| ==> short == long)
    ensures Cut(s, short) == Cut(s, long) + long[..|long| - |short|]
  {
    assert long[|long| - |short|..] == s[|s| - |short|..] == short;
    assert s[..|s| - |short|] == s[..|s| - |long|] + s[|s| - |long|..|s| - |short|];
    assert s[|s| - |long|..][..|long| - |short|] == s[|s| - |long|..|s| - |short|];
  }

  /** Whichever listed marker comes off first, the rest peels to the same name. */
  lemma {:induction false} PeelAny(s: string, m: string, strip: seq<string>)
    requires TailsAreRuns(strip) && m in strip && ComesOff(s, m)
    ensures Peeled(s, strip) == Peeled(Cut(s, m), strip)
    decreases |s|, 0
  {
    hide IsRun, EndsWith, Shorter, Settled;
    var k :| 0 <= k < |strip| && strip[k] == m;
    NotSettled(s, m, strip);
    var f := ShorterIsSomeCut(s, strip);
    var l :| 0 <= l < |strip| && strip[l] == f;
    if |m| < |f| {
      TwoThatFit(s, f, m);
      PeelOff(Cut(s, f), f[..|f| - |m|], strip);
    } else {
      TwoThatFit(s, m, f);
      if |f| < |m| {
        PeelOff(Cut(s, m), m[..|m| - |f|], strip);
      }
    }
  }

  lemma NotSettled(s: string, m: string, strip: seq<string>)
    requires m in strip && ComesOff(s, m)
    ensures !Settled(s, strip)
  {
    var k :| 0 <= k < |strip| && strip[k] == m;
  }

  lemma {:induction false} PeelOff(x: string, t: string, strip: seq<string>)
    requires TailsAreRuns(strip) && x != "" && IsRun(t, strip)
    ensures Peeled(x + t, strip) == Peeled(x, strip)
    decreases |x| + |t|, 1
  {
    hide TailsAreRuns, IsRun, Settled;
    if t == "" {
      assert x + t == x;
    } else {
      var front, m := LastMarker(t, strip);
      assert x + t == x + front + m && EndsWith(x + t, m);
      assert Cut(x + t, m) == x + front;
      PeelAny(x + t, m, strip);
      PeelOff(x, front, strip);
    }
  }

  lemma {:induction false} SweepPeels(s: string, strip: seq<string>, all: seq<string>)
    requires TailsAreRuns(all) && forall m | m in strip :: m in all
    ensures Peeled(Sweep(s, strip), all) == Peeled(s, all)
    decreases |strip|
  {
    hide TailsAreRuns;
    if strip != [] {
      SweepPeels(Cut(s, strip[0]), strip[1..], all);
      if ComesOff(s, strip[0]) {
        PeelAny(s, strip[0], all);
      }
    }
  }

  lemma {:induction false} LogicalPeels(s: string, strip: seq<string>)
    requires TailsAreRuns(strip)
    ensures Logical(s, strip) == Peeled(s, strip)
    decreases |s|
  {
    hide TailsAreRuns;
    var t := Sweep(s, strip);
    if |t| < |s| {
      SweepPeels(s, strip, strip);
      LogicalPeels(t, strip);
    }
  }

  lemma {:induction false} PeeledSameSet(s: string, strip: seq<string>, other: seq<string>)
    requires TailsAreRuns(strip) && TailsAreRuns(other) && SameMarkers(strip, other)
    ensures Peeled(s, strip) == Peeled(s, other)
    decreases |s|
  {
    hide TailsAreRuns;
    if !Settled(s, strip) {
      var m := ShorterIsSomeCut(s, strip);
      assert m in other;
      PeelAny(s, m, other);
      PeeledSameSet(Cut(s, m), strip, other);
    } else {
      forall j | 0 <= j < |other| ensures !ComesOff(s, other[j]) {
        assert other[j] in strip;
      }
    }
  }

  /** The order (and repetition) of the marker list does not matter. */
  lemma MarkerOrderIrrelevant(s: string, strip: seq<string>, other: seq<string>)
    requires TailsAreRuns(strip) && SameMarkers(strip, other)
    ensures Logical(s, strip) == Logical(s, other)
  {
    hide TailsAreRuns;
    TailsOfSameMarkers(strip, other);
    LogicalPeels(s, strip);
    LogicalPeels(s, other);
    PeeledSameSet(s, strip, other);
  }

  // ------------------------------------------------------------ exactly when the order does not matter

  /** What comes off is a run of markers, whatever the list. */
  lemma {:induction false} SweepCutsARun(s: string, strip: seq<string>, all: seq<string>)
    requires s != "" && forall m | m in strip :: m in all
    ensures var t := Sweep(s, strip); t != "" && t <= s && IsRun(s[|t|..], all)
    decreases |strip|
  {
    hide IsRun, EndsWith;
    if strip == [] {
      NoRun(all);
      assert s[|s|..] == "";
    } else {
      var s', t := Cut(s, strip[0]), Sweep(s, strip);
      SweepCutsARun(s', strip[1..], all);
      if ComesOff(s, strip[0]) {
        SplitTail(s, strip[0]);
        OneMoreMarker(s'[|t|..], strip[0], all);
        assert s'[|t|..] + strip[0] == s[|t|..];
      }
    }
  }

  lemma NoRun(strip: seq<string>)
    ensures IsRun("", strip)
  {
  }

  lemma {:induction false} LogicalCutsARun(s: string, strip: seq<string>)
    requires s != ""
    ensures var t := Logical(s, strip); t != "" && t <= s && IsRun(s[|t|..], strip)
    decreases |s|
  {
    hide IsRun, Sweep;
    var t := Sweep(s, strip);
    SweepCutsARun(s, strip, strip);
    LogicalStep(s, strip);
    if |t| < |s| {
      hide Logical;
      var r := Logical(t, strip);
      LogicalCutsARun(t, strip);
      RunsTogether(t[|r|..], s[|t|..], strip);
      assert t[|r|..] + s[|t|..] == s[|r|..];
    } else {
      NoRun(strip);
      assert s[|s|..] == "";
    }
  }

  /** Every order of the same list strips every name alike. */
  ghost predicate OrderIndependent(strip: seq<string>) {
    forall s: string, other: seq<string> | multiset(other) == multiset(strip) :: Logical(s, other) == Logical(s, strip)
  }

  function ToFront(strip: seq<string>, i: nat): (other: seq<string>)
    requires i < |strip|
    ensures multiset(other) == multiset(strip) && SameMarkers(strip, other)
  {
    assert strip == strip[..i] + [strip[i]] + strip[i + 1..];
    var other := [strip[i]] + strip[..i] + strip[i + 1..];
    assert forall m :: m in strip <==> m in multiset(strip);
    assert forall m :: m in other <==> m in multiset(other);
    other
  }

  /** A marker tried first comes off whole, and nothing comes off a single character. */
  lemma FirstComesOff(c: char, m: string, rest: seq<string>)
    requires m != ""
    ensures Logical([c] + m, [m] + rest) == [c]
  {
    var s, strip := [c] + m, [m] + rest;
    assert EndsWith(s, m) && Cut(s, m) == [c];
    assert strip[1..] == rest;
    assert Settled([c], rest) && Settled([c], strip);
    assert Sweep(s, strip) == [c];
    LogicalStep(s, strip);
    LogicalStep([c], strip);
  }

  lemma FirstInSweep(left: string, m: string, rest: seq<string>)
    requires left != "" && m != ""
    ensures Sweep(left + m, [m] + rest) == Sweep(left, rest)
  {
    assert ([m] + rest)[1..] == rest;
    assert EndsWith(left + m, m) && Cut(left + m, m) == left;
  }

  /** With the shorter of two overlapping markers tried first, the rest of the longer one must come off by itself. */
  lemma ShorterFirst(c: char, long: string, short: string, rest: seq<string>)
    requires short != "" && |short| < |long| && EndsWith(long, short)
    requires Logical([c] + long, [short] + rest) == [c]
    ensures IsRun(long[..|long| - |short|], [short] + rest)
  {
    hide IsRun, Logical, EndsWith, Sweep;
    var strip, left := [short] + rest, [c] + long[..|long| - |short|];
    SplitTail(long, short);
    assert [c] + long == left + short;
    var t := Sweep(left, rest);
    FirstInSweep(left, short, rest);
    LogicalStep([c] + long, strip);
    SweepCutsARun(left, rest, strip);
    LogicalCutsARun(t, strip);
    RunsTogether(t[1..], left[|t|..], strip);
    assert t[1..] + left[|t|..] == left[1..] == long[..|long| - |short|];
  }

  /**
   The order of the markers is irrelevant, for every name, exactly when each rest of a marker that
   ends in another one is a run of markers itself.
   */
  lemma OrderIrrelevantExactlyWhen(strip: seq<string>)
    ensures OrderIndependent(strip) <==> TailsAreRuns(strip)
  {
    hide IsRun, Logical, EndsWith;
    if TailsAreRuns(strip) {
      RunsMakeOrderIrrelevant(strip);
    }
    if OrderIndependent(strip) {
      forall i, j | 0 <= i < |strip| && 0 <= j < |strip| && strip[j] != "" && |strip[j]| < |strip[i]| &&
        EndsWith(strip[i], strip[j])
        ensures IsRun(strip[i][..|strip[i]| - |strip[j]|], strip)
      {
        TailIsARun(strip, i, j);
      }
    }
  }

  lemma RunsMakeOrderIrrelevant(strip: seq<string>)
    requires TailsAreRuns(strip)
    ensures OrderIndependent(strip)
  {
    hide TailsAreRuns, IsRun, Logical, EndsWith;
    forall s: string, other: seq<string> | multiset(other) == multiset(strip)
      ensures Logical(s, other) == Logical(s, strip) {
      assert forall m :: m in strip <==> m in multiset(strip);
      assert forall m :: m in other <==> m in multiset(other);
      MarkerOrderIrrelevant(s, strip, other);
    }
  }

  lemma TailIsARun(strip: seq<string>, i: nat, j: nat)
    requires OrderIndependent(strip) && i < |strip| && j < |strip|
    requires strip[j] != "" && |strip[j]| < |strip[i]| && EndsWith(strip[i], strip[j])
    ensures IsRun(strip[i][..|strip[i]| - |strip[j]|], strip)
  {
    hide IsRun, Logical, EndsWith;
    var a, b := strip[i], strip[j];
    FirstComesOff('x', a, strip[..i] + strip[i + 1..]);
    assert ToFront(strip, i) == [a] + (strip[..i] + strip[i + 1..]);
    assert ToFront(strip, j) == [b] + (strip[..j] + strip[j + 1..]);
    assert Logical(['x'] + a, ToFront(strip, j)) == Logical(['x'] + a, strip) ==
      Logical(['x'] + a, ToFront(strip, i)) == ['x'];
    ShorterFirst('x', a, b, strip[..j] + strip[j + 1..]);
    RunOfSameMarkers(a[..|a| - |b|], ToFront(strip, j), strip);
  }

  /** "-aok" is the tail of "-aok-aok", but what is left of it is "-aok" again: the order does not matter. */
  lemma DoubledMarkerIsHarmless()
    ensures OrderIndependent(["-aok", "-aok-aok"])
  {
    hide OrderIndependent, IsRun, EndsWith;
    var strip := ["-aok", "-aok-aok"];
    NoRun(strip);
    OneMoreMarker("", strip[0], strip);
    assert "" + strip[0] == strip[0] == strip[1][..4];
    forall i, j | 0 <= i < |strip| && 0 <= j < |strip| && |strip[j]| < |strip[i]|
      ensures IsRun(strip[i][..|strip[i]| - |strip[j]|], strip)
    {
      assert i == 1 && j == 0;
    }
    OrderIrrelevantExactlyWhen(strip);
  }

  /** "aok" is the tail of "-aok" and "-" is no marker: the order matters. */
  lemma MarkerOrderMatters()
    ensures Logical("x-aok", ["-aok", "aok"]) == "x"
    ensures Logical("x-aok", ["aok", "-aok"]) == "x-"
    ensures !TailsAreRuns(["-aok", "aok"])
  {
    hide Logical, Sweep, Settled;
    FirstComesOff('x', "-aok", ["aok"]);
    assert "x-aok" == ['x'] + "-aok" && ["-aok", "aok"] == ["-aok"] + ["aok"];
    AokFirst();
    var strip := ["-aok", "aok"];
    assert EndsWith(strip[0], strip[1]) && strip[0][..1] == "-";
    assert !IsRun("-", strip);
  }

  lemma AokFirst()
    ensures Logical("x-aok", ["aok", "-aok"]) == "x-"
  {
    var strip := ["aok", "-aok"];
    assert strip[1..] == ["-aok"] && ["-aok"][1..] == [];
    assert EndsWith("x-aok", "aok") && Cut("x-aok", "aok") == "x-";
    assert !ComesOff("x-", strip[0]) && !ComesOff("x-", strip[1]);
    assert Settled("x-", strip);
    assert Sweep("x-", ["-aok"]) == "x-";
    LogicalStep("x-aok", strip);
    LogicalStep("x-", strip);
  }

  // ------------------------------------------------------------ runs come off whole

  /** Behind any name, any run of markers is transparent. */
  ghost predicate RunsComeOff(strip: seq<string>) {
    forall base: string, run: seq<string> | base != "" && MarkerRun(run, strip) ::
      Logical(WithMarkers(base, run), strip) == Logical(base, strip)
  }

  lemma {:induction false} PeelRun(base: string, run: seq<string>, strip: seq<string>)
    requires TailsAreRuns(strip) && MarkerRun(run, strip) && base != ""
    ensures |WithMarkers(base, run)| >= |base|
    ensures Peeled(WithMarkers(base, run), strip) == Peeled(base, strip)
    decreases |run|
  {
    hide TailsAreRuns;
    if run != [] {
      var front, last := run[..|run| - 1], run[|run| - 1];
      PeelRun(base, front, strip);
      var s := WithMarkers(base, front);
      assert last in strip;
      if last == "" {
        assert s + last == s;
      } else {
        assert ComesOff(s + last, last) && Cut(s + last, last) == s;
        PeelAny(s + last, last, strip);
      }
    }
  }

  /** A run of markers comes off whole, and leaves what the name below it would leave. */
  lemma RunComesOff(base: string, run: seq<string>, strip: seq<string>)
    requires TailsAreRuns(strip) && MarkerRun(run, strip) && base != ""
    ensures Logical(WithMarkers(base, run), strip) == Logical(base, strip)
    ensures Settled(base, strip) ==> Logical(WithMarkers(base, run), strip) == base
  {
    hide TailsAreRuns;
    PeelRun(base, run, strip);
    LogicalPeels(WithMarkers(base, run), strip);
    LogicalPeels(base, strip);
  }

  /** Runs come off every name exactly under the same condition. */
  lemma RunsComeOffExactlyWhen(strip: seq<string>)
    ensures RunsComeOff(strip) <==> TailsAreRuns(strip)
  {
    hide IsRun, Logical, EndsWith, Settled;
    if TailsAreRuns(strip) {
      forall base: string, run: seq<string> | base != "" && MarkerRun(run, strip)
        ensures Logical(WithMarkers(base, run), strip) == Logical(base, strip)
      {
        RunComesOff(base, run, strip);
      }
    }
    if RunsComeOff(strip) {
      forall i, j | 0 <= i < |strip| && 0 <= j < |strip| && strip[j] != "" && |strip[j]| < |strip[i]| &&
        EndsWith(strip[i], strip[j])
        ensures IsRun(strip[i][..|strip[i]| - |strip[j]|], strip)
      {
        var a, b := strip[i], strip[j];
        var left := "x" + a[..|a| - |b|];
        SplitTail(a, b);
        OneMarker("x", a);
        OneMarker(left, b);
        assert left + b == "x" + a;
        NothingOffOneChar('x', strip);
        LogicalCutsARun(left, strip);
        assert left[1..] == a[..|a| - |b|];
      }
    }
  }

  lemma SplitTail(a: string, b: string)
    requires EndsWith(a, b)
    ensures a == a[..|a| - |b|] + b
  {
  }

  lemma OneMarker(base: string, m: string)
    ensures WithMarkers(base, [m]) == base + m
  {
    assert [m][..0] == [];
  }

  lemma NothingOffOneChar(c: char, strip: seq<string>)
    ensures Logical([c], strip) == [c]
  {
    assert Settled([c], strip);
  }

  // ------------------------------------------------------------ pins

  /** Nothing, or the "-rN" of a redone cut. */
  predicate IsRevision(r: string) {
    r == "" || (|r| >= 3 && r[0] == '-' && r[1] == 'r' && forall i | 2 <= i < |r| :: '0' <= r[i] <= '9')
  }

  /** The first listed version that, with an optional revision, is all of `t`. */
  function VersionIn(t: string, versions: seq<string>): (v: Option<string>)
    ensures v.Some? ==> v.value in versions && v.value <= t && IsRevision(t[|v.value|..])
  {
    if versions == [] then None
    else if versions[0] <= t && IsRevision(t[|versions[0]|..]) then Some(versions[0])
    else VersionIn(t, versions[1..])
  }

  /** The whole of `t` read as a pin: "-V" or "-branch-V", then an optional revision. */
  function PinAt(t: string): (v: Option<string>)
    ensures v.Some? ==> v.value in VERSIONS
  {
    if "-branch-" <= t && VersionIn(t[8..], VERSIONS).Some? then VersionIn(t[8..], VERSIONS)
    else if "-" <= t then VersionIn(t[1..], VERSIONS)
    else None
  }

  /** Where the leftmost pin that reaches the end of the name starts; |s| when there is none. */
  function PinStart(s: string, from: nat): (i: nat)
    requires from <= |s|
    ensures from <= i <= |s|
    ensures i < |s| ==> PinAt(s[i..]).Some?
    ensures forall k | from <= k < i :: PinAt(s[k..]) == None
    decreases |s| - from
  {
    if from == |s| || PinAt(s[from..]).Some? then from else PinStart(s, from + 1)
  }

  /** The release branch a trailing version pins this branch to. */
  function SuffixTarget(branch: string, strip: seq<string>): Option<string> {
    var s := Logical(branch, strip);
    match PinAt(s[PinStart(s, 0)..])
    case Some(v) => Some(TargetOf(v))
    case None => None
  }

  /** The name without markers and without its pin, unless nothing would be left. */
  function FamilyStem(branch: string, strip: seq<string>): string {
    var s := Logical(branch, strip);
    var stem := s[..PinStart(s, 0)];
    if stem == "" then s else stem
  }

  function Pin(long: bool, version: string, revision: string): string {
    (if long then "-branch-" else "-") + version + revision
  }

  lemma VersionShape(v: string)
    requires v in VERSIONS
    ensures |v| > 0 && v[0] != 'r' && v[0] != 'b' && |v| <= 6
    ensures forall i | 0 <= i < |v| :: v[i] != '-'
  {
    assert v == "master" || v == "3.5" || v == "4.0" || v == "4.1" || v == "4.2" || v == "4.3" || v == "4.x" ||
      v == "4x";
  }

  lemma VersionReadsBack(v: string, revision: string)
    requires v in VERSIONS && IsRevision(revision)
    ensures VersionIn(v + revision, VERSIONS) == Some(v)
  {
    var k :| 0 <= k < |VERSIONS| && VERSIONS[k] == v;
    assert VERSIONS[k..] <= VERSIONS[k..];
    VersionReadsBackFrom(v, revision, k, 0);
    assert VERSIONS[0..] == VERSIONS;
  }

  /** No version with a revision behind it is read as another version. */
  lemma OnlyOneVersion(v: string, revision: string, other: string)
    requires v in VERSIONS && other in VERSIONS && IsRevision(revision)
    requires other <= v + revision && IsRevision((v + revision)[|other|..])
    ensures other == v
  {
    var t := v + revision;
    VersionShape(v);
    VersionShape(other);
    var left := t[|other|..];
    assert forall j | 0 <= j < |v| :: t[j] == v[j];
    assert forall j | 0 <= j < |other| :: t[j] == other[j];
    assert forall j | 0 <= j < |left| :: left[j] == t[|other| + j];
    assert forall j | 0 <= j < |revision| :: revision[j] == t[|v| + j];
    if |other| < |v| {
      assert false;
    } else if |v| < |other| {
      assert false;
    }
    assert v == t[..|v|] && other == t[..|other|];
  }

  lemma VersionInStep(t: string, from: nat)
    requires from < |VERSIONS|
    ensures VersionIn(t, VERSIONS[from..]) ==
      if VERSIONS[from] <= t && IsRevision(t[|VERSIONS[from]|..]) then Some(VERSIONS[from])
      else VersionIn(t, VERSIONS[from + 1..])
  {
    hide IsRevision, VERSIONS;
    assert VERSIONS[from..][0] == VERSIONS[from] && VERSIONS[from..][1..] == VERSIONS[from + 1..];
  }

  lemma {:induction false} VersionReadsBackFrom(v: string, revision: string, k: nat, from: nat)
    requires from <= k < |VERSIONS| && VERSIONS[k] == v && IsRevision(revision)
    ensures VersionIn(v + revision, VERSIONS[from..]) == Some(v)
    decreases k - from
  {
    hide IsRevision, VersionIn, VERSIONS;
    var t := v + revision;
    VersionInStep(t, from);
    if VERSIONS[from] <= t && IsRevision(t[|VERSIONS[from]|..]) {
      OnlyOneVersion(v, revision, VERSIONS[from]);
    } else {
      assert v <= t && t[|v|..] == revision;
      VersionReadsBackFrom(v, revision, k, from + 1);
    }
  }

  lemma PinReadsBack(long: bool, v: string, revision: string)
    requires v in VERSIONS && IsRevision(revision)
    ensures PinAt(Pin(long, v, revision)) == Some(v)
  {
    hide IsRevision, VersionIn;
    var t := Pin(long, v, revision);
    VersionReadsBack(v, revision);
    VersionShape(v);
    if long {
      assert t[8..] == v + revision;
    } else {
      assert t[1..] == v + revision;
      assert t[1] == v[0] != "-branch-"[1];
    }
  }

  /** Where the version of a pin starts: behind "-branch-" or behind "-". */
  function Lead(t: string): nat {
    if "-branch-" <= t && VersionIn(t[8..], VERSIONS).Some? then 8 else 1
  }

  lemma PinParts(t: string)
    requires PinAt(t).Some?
    ensures var v, lead := PinAt(t).value, Lead(t);
      && v in VERSIONS && lead + |v| <= |t| && v == t[lead..lead + |v|] && IsRevision(t[lead + |v|..])
      && (lead == 8 ==> "-branch-" <= t)
  {
    hide IsRevision;
    var v, lead := PinAt(t).value, Lead(t);
    assert v <= t[lead..];
    assert t[lead..][|v|..] == t[lead + |v|..];
  }

  lemma OneDashInRevision(r: string, k: nat)
    requires IsRevision(r) && k < |r| && r[k] == '-'
    ensures k == 0
  {
  }

  /** A pin has its dashes in known places: in front, behind "branch", before the revision. */
  lemma DashesOfPin(t: string, k: nat)
    requires PinAt(t).Some? && 0 < k < |t| && t[k] == '-'
    ensures
      var v := PinAt(t).value;
      || (IsRevision(t[k..]) && k == 1 + |v|)
      || (IsRevision(t[k..]) && "-branch-" <= t && k == 8 + |v|)
      || ("-branch-" <= t && k == 7)
  {
    hide IsRevision, PinAt, VersionIn;
    var v, lead := PinAt(t).value, Lead(t);
    PinParts(t);
    VersionShape(v);
    assert Lead(t) == 1 || Lead(t) == 8;
    assert forall j | lead <= j < lead + |v| :: t[j] == t[lead..lead + |v|][j - lead] == v[j - lead];
    if k < lead {
      assert t[k] == "-branch-"[k];
    } else {
      OneDashInRevision(t[lead + |v|..], k - lead - |v|);
    }
  }

  /** A pin that has another pin as its tail is "-branch" in front of a short one. */
  lemma PinInsidePin(t: string, k: nat, pin: string)
    requires PinAt(t).Some? && 0 < k < |t| && t[k..] == pin
    requires !IsRevision(pin) && pin[0] == '-'
    requires "-branch-" <= pin ==> |pin| > 8 && !IsRevision(pin[7..])
    ensures "-branch-" <= t && k == 7
    ensures !("-branch-" <= pin)
  {
    DashesOfPin(t, k);
    if "-branch-" <= pin {
      assert t[14] == pin[7] && t[14..] == pin[7..];
      DashesOfPin(t, 14);
    }
  }

  lemma PinIsNoRevision(long: bool, v: string, revision: string)
    requires v in VERSIONS && IsRevision(revision)
    ensures
      var pin := Pin(long, v, revision);
      && |pin| > 1 && pin[0] == '-' && !IsRevision(pin)
      && (long ==> "-branch-" <= pin)
      && ("-branch-" <= pin ==> |pin| > 8 && !IsRevision(pin[7..]))
  {
    VersionShape(v);
    var pin := Pin(long, v, revision);
    if long {
      assert pin[8] == v[0] && pin[1] == 'b';
      assert |pin| > 8;
      assert pin[7..][1] == pin[8];
    } else {
      assert pin[1] == v[0] != "-branch-"[1];
    }
  }

  /** No pin starts inside the stem. */
  lemma NoEarlierPin(stem: string, pin: string, i: nat)
    requires i < |stem| && |pin| > 1 && pin[0] == '-' && !IsRevision(pin)
    requires "-branch-" <= pin ==> |pin| > 8 && !IsRevision(pin[7..])
    requires "-branch-" <= pin || !EndsWith(stem, "-branch")
    ensures PinAt((stem + pin)[i..]) == None
  {
    hide PinAt, IsRevision;
    var t := (stem + pin)[i..];
    var k := |stem| - i;
    assert t == stem[i..] + pin;
    assert t[k..] == pin && t[..k] == stem[i..];
    if PinAt(t).Some? {
      assert "-branch-"[..7] == "-branch";
      PinInsidePin(t, k, pin);
      assert false;
    }
  }

  lemma FirstPinFound(stem: string, pin: string)
    requires |pin| > 1 && pin[0] == '-' && !IsRevision(pin)
    requires "-branch-" <= pin ==> |pin| > 8 && !IsRevision(pin[7..])
    requires "-branch-" <= pin || !EndsWith(stem, "-branch")
    requires PinAt(pin).Some?
    ensures PinStart(stem + pin, 0) == |stem|
  {
    var at := PinStart(stem + pin, 0);
    assert (stem + pin)[|stem|..] == pin;
    if at < |stem| {
      NoEarlierPin(stem, pin, at);
    }
  }

  lemma PinStartIs(stem: string, long: bool, v: string, revision: string)
    requires v in VERSIONS && IsRevision(revision)
    requires long || !EndsWith(stem, "-branch")
    ensures PinStart(stem + Pin(long, v, revision), 0) == |stem|
  {
    PinIsNoRevision(long, v, revision);
    PinReadsBack(long, v, revision);
    FirstPinFound(stem, Pin(long, v, revision));
  }

  /** A short pin behind a stem that ends in "-branch" reads as a long one. */
  lemma SwallowedStem(stem: string, v: string, revision: string)
    requires EndsWith(stem, "-branch")
    ensures stem + Pin(false, v, revision) == stem[..|stem| - 7] + Pin(true, v, revision)
  {
    assert stem == stem[..|stem| - 7] + "-branch";
  }

  /** What the markers leave of a pinned name still ends in the pin, with some revision. */
  ghost predicate KeepsPin(stem: string, long: bool, v: string, revision: string, strip: seq<string>) {
    exists left :: IsRevision(left) && Logical(stem + Pin(long, v, revision), strip) == stem + Pin(long, v, left)
  }

  /**
   A pinned name under any run of markers reads as it does without them. Where the markers leave
   the pin alone, every spelling reads back to its target; and to its stem exactly when the
   spelling cannot eat the stem's own "-branch".
   */
  lemma SpellingReadsBack(stem: string, long: bool, v: string, revision: string, run: seq<string>, strip: seq<string>)
    requires stem != "" && v in VERSIONS && IsRevision(revision)
    requires TailsAreRuns(strip) && MarkerRun(run, strip)
    ensures
      var bare := stem + Pin(long, v, revision);
      var name := WithMarkers(bare, run);
      && SuffixTarget(name, strip) == SuffixTarget(bare, strip)
      && FamilyStem(name, strip) == FamilyStem(bare, strip)
      && (KeepsPin(stem, long, v, revision, strip) ==>
            && SuffixTarget(name, strip) == Some(TargetOf(v))
            && (FamilyStem(name, strip) == stem <==> long || !EndsWith(stem, "-branch")))
  {
    hide TailsAreRuns, Logical, PinStart, PinAt, IsRevision, Settled;
    var bare := stem + Pin(long, v, revision);
    RunComesOff(bare, run, strip);
    if KeepsPin(stem, long, v, revision, strip) {
      var left :| IsRevision(left) && Logical(bare, strip) == stem + Pin(long, v, left);
      if long || !EndsWith(stem, "-branch") {
        PinAtTail(stem, long, v, left);
      } else {
        SwallowedStem(stem, v, left);
        PinAtTail(stem[..|stem| - 7], true, v, left);
      }
    }
  }

  lemma PinAtTail(stem: string, long: bool, v: string, revision: string)
    requires v in VERSIONS && IsRevision(revision)
    requires long || !EndsWith(stem, "-branch")
    ensures
      var s := stem + Pin(long, v, revision);
      PinStart(s, 0) == |stem| && PinAt(s[|stem|..]) == Some(v) && s[..|stem|] == stem
  {
    PinStartIs(stem, long, v, revision);
    PinReadsBack(long, v, revision);
    assert (stem + Pin(long, v, revision))[|stem|..] == Pin(long, v, revision);
  }

  lemma StandardTailsAreRuns()
    ensures TailsAreRuns(MARKERS)
  {
    assert MARKERS[0][3] == 'k' && MARKERS[1][8] == 'd';
  }

  /** A settled name keeps its pin, revision and all. */
  lemma SettledKeepsPin(stem: string, long: bool, v: string, revision: string, strip: seq<string>)
    requires IsRevision(revision) && Settled(stem + Pin(long, v, revision), strip)
    ensures KeepsPin(stem, long, v, revision, strip)
  {
    hide IsRevision;
  }

  /** None of the standard markers can come off a name that ends in a pin. */
  lemma PinIsSettled(stem: string, long: bool, v: string, revision: string)
    requires v in VERSIONS && IsRevision(revision)
    ensures Settled(stem + Pin(long, v, revision), MARKERS)
  {
    var s := stem + Pin(long, v, revision);
    assert v == "master" || v == "3.5" || v == "4.0" || v == "4.1" || v == "4.2" || v == "4.3" || v == "4.x" ||
      v == "4x";
    assert s[|s| - 1] == if revision == "" then v[|v| - 1] else revision[|revision| - 1];
    assert s[|s| - 1] != 'k' && s[|s| - 1] != 'd';
    forall m | m in MARKERS && |m| < |s| ensures !EndsWith(s, m) {
      assert s[|s| - |m|..][|m| - 1] == s[|s| - 1] != m[|m| - 1];
    }
  }

  /** The same, for the markers the tool strips unless told otherwise. */
  lemma StandardSpellingReadsBack(stem: string, long: bool, v: string, revision: string, run: seq<string>)
    requires stem != "" && v in VERSIONS && IsRevision(revision)
    requires MarkerRun(run, MARKERS)
    ensures
      var name := WithMarkers(stem + Pin(long, v, revision), run);
      && SuffixTarget(name, MARKERS) == Some(TargetOf(v))
      && (FamilyStem(name, MARKERS) == stem <==> long || !EndsWith(stem, "-branch"))
  {
    StandardTailsAreRuns();
    PinIsSettled(stem, long, v, revision);
    SettledKeepsPin(stem, long, v, revision, MARKERS);
    SpellingReadsBack(stem, long, v, revision, run, MARKERS);
  }

  // ------------------------------------------------------------ siblings

  /** The names unlisted_sibling() looks for: every version of `target`, both spellings, each marker. */
  ghost predicate Probed(name: string, stem: string, target: string, strip: seq<string>) {
    exists v, long, marker ::
      && v in VERSIONS && TargetOf(v) == target && (marker == "" || marker in strip)
      && name == stem + Pin(long, v, "") + marker
  }

  /** No marker ends in a bare pin, and none is the end of one. */
  predicate LeavesPins(strip: seq<string>) {
    forall i, k, long | 0 <= i < |strip| && 0 <= k < |VERSIONS| && strip[i] != "" ::
      !EndsWith(strip[i], Pin(long, VERSIONS[k], "")) && !EndsWith(Pin(long, VERSIONS[k], ""), strip[i])
  }

  lemma PinsAreLeft(stem: string, long: bool, v: string, strip: seq<string>)
    requires LeavesPins(strip) && v in VERSIONS
    ensures Settled(stem + Pin(long, v, ""), strip)
  {
    hide Pin, EndsWith;
    var pin := Pin(long, v, "");
    var s := stem + pin;
    var k :| 0 <= k < |VERSIONS| && VERSIONS[k] == v;
    forall i | 0 <= i < |strip| ensures !ComesOff(s, strip[i]) {
      TailsOverlap(stem, pin, strip[i]);
    }
  }

  /** Of two tails of one name, one is the tail of the other. */
  lemma TailsOverlap(stem: string, pin: string, m: string)
    ensures EndsWith(stem + pin, m) ==> EndsWith(pin, m) || EndsWith(m, pin)
  {
    var s := stem + pin;
    assert |m| <= |pin| ==> s[|s| - |m|..] == pin[|pin| - |m|..];
    assert |pin| < |m| <= |s| ==> s[|s| - |m|..][|m| - |pin|..] == pin;
  }

  /** Every name unlisted_sibling() looks for is pinned to the target it looks for. */
  lemma ProbeReadsBack(name: string, stem: string, target: string, strip: seq<string>)
    requires TailsAreRuns(strip) && LeavesPins(strip)
    requires stem != "" && Probed(name, stem, target, strip)
    ensures SuffixTarget(name, strip) == Some(target)
  {
    hide TailsAreRuns, LeavesPins, SuffixTarget, FamilyStem;
    var v, long, marker :|
      && v in VERSIONS && TargetOf(v) == target && (marker == "" || marker in strip)
      && name == stem + Pin(long, v, "") + marker;
    var base := stem + Pin(long, v, "");
    PinsAreLeft(stem, long, v, strip);
    SettledKeepsPin(stem, long, v, "", strip);
    if marker == "" {
      assert name == base == WithMarkers(base, []);
      SpellingReadsBack(stem, long, v, "", [], strip);
    } else {
      OneMarker(base, marker);
      SpellingReadsBack(stem, long, v, "", [marker], strip);
    }
  }

  /** The standard markers leave pins alone. */
  lemma StandardLeavesPins()
    ensures LeavesPins(MARKERS)
  {
    forall i, k, long | 0 <= i < |MARKERS| && 0 <= k < |VERSIONS| && MARKERS[i] != ""
      ensures !EndsWith(MARKERS[i], Pin(long, VERSIONS[k], "")) && !EndsWith(Pin(long, VERSIONS[k], ""), MARKERS[i])
    {
      StandardLeavesPin(MARKERS[i], long, VERSIONS[k]);
    }
  }

  lemma StandardLeavesPin(m: string, long: bool, v: string)
    requires m in MARKERS && v in VERSIONS
    ensures !EndsWith(m, Pin(long, v, "")) && !EndsWith(Pin(long, v, ""), m)
  {
    assert v[|v| - 1] != 'k' && v[|v| - 1] != 'd' by {
      assert v == "master" || v == "3.5" || v == "4.0" || v == "4.1" || v == "4.2" || v == "4.3" || v == "4.x" ||
        v == "4x";
    }
    assert m[|m| - 1] == 'k' || m[|m| - 1] == 'd';
    SameEnds(m, Pin(long, v, ""));
  }

  lemma SameEnds(a: string, b: string)
    requires a != "" && b != ""
    ensures EndsWith(a, b) || EndsWith(b, a) ==> a[|a| - 1] == b[|b| - 1]
  {
    assert |b| <= |a| ==> a[|a| - |b|..][|b| - 1] == a[|a| - 1];
    assert |a| <= |b| ==> b[|b| - |a|..][|a| - 1] == b[|b| - 1];
  }

  /** Insertion-ordered: a later sibling for the same target replaces the owner in place. */
  type Coverage = seq<(string, string)>

  function Put(covered: Coverage, target: string, owner: string): Coverage {
    if covered == [] then [(target, owner)]
    else if covered[0].0 == target then [(target, owner)] + covered[1..]
    else [covered[0]] + Put(covered[1..], target, owner)
  }

  ghost predicate Covers(covered: Coverage, target: string) {
    exists i | 0 <= i < |covered| :: covered[i].0 == target
  }

  predicate IsSiblingCut(branch: string, other: string, target: string, strip: seq<string>) {
    && other != branch
    && SuffixTarget(other, strip) == Some(target)
    && FamilyStem(other, strip) == FamilyStem(branch, strip)
  }

  predicate OwnsATarget(branch: string, other: string, targets: seq<string>, strip: seq<string>) {
    && SuffixTarget(other, strip).Some?
    && SuffixTarget(other, strip).value in targets
    && IsSiblingCut(branch, other, SuffixTarget(other, strip).value, strip)
  }

  /** target -> the listed sibling that owns it, for a branch with no pin of its own. */
  function CoverageUpTo(branch: string, targets: seq<string>, all: seq<string>, strip: seq<string>): Coverage {
    if all == [] then [] else
      var before := CoverageUpTo(branch, targets, all[..|all| - 1], strip);
      var other := all[|all| - 1];
      if OwnsATarget(branch, other, targets, strip) then Put(before, SuffixTarget(other, strip).value,
        other) else before
  }

  method SiblingCoverage(branch: string, targets: seq<string>, all: seq<string>, strip: seq<string>)
    returns (covered: Coverage)
    ensures covered == CoverageFor(branch, targets, all, strip)
  {
    if SuffixTarget(branch, strip).Some? {
      return [];
    }
    covered := [];
    for i := 0 to |all|
      invariant covered == CoverageUpTo(branch, targets, all[..i], strip)
    {
      assert all[..i + 1][..i] == all[..i];
      var other := all[i];
      if other == branch { continue; }
      var pinned := SuffixTarget(other, strip);
      if pinned.Some? && pinned.value in targets && FamilyStem(other, strip) == FamilyStem(branch, strip) {
        covered := Put(covered, pinned.value, other);
      }
    }
    assert all[..|all|] == all;
  }

  function CoverageFor(branch: string, targets: seq<string>, all: seq<string>, strip: seq<string>): Coverage {
    if SuffixTarget(branch, strip).Some? then [] else CoverageUpTo(branch, targets, all, strip)
  }

  lemma CoversOneMore(first: (string, string), rest: Coverage, t: string)
    ensures Covers([first] + rest, t) <==> first.0 == t || Covers(rest, t)
  {
    var all := [first] + rest;
    assert all[0] == first && forall i | 0 <= i < |rest| :: all[i + 1] == rest[i];
  }

  lemma {:induction false} PutCovers(covered: Coverage, target: string, owner: string, t: string)
    ensures Covers(Put(covered, target, owner), t) <==> t == target || Covers(covered, t)
    ensures forall row | row in Put(covered, target, owner) :: row == (target, owner) || row in covered
  {
    hide Covers;
    if covered == [] {
      CoversOneMore((target, owner), [], t);
      assert [(target, owner)] + [] == [(target, owner)];
      NothingCovers(t);
    } else {
      CoversOneMore(covered[0], covered[1..], t);
      assert [covered[0]] + covered[1..] == covered;
      if covered[0].0 == target {
        CoversOneMore((target, owner), covered[1..], t);
      } else {
        PutCovers(covered[1..], target, owner, t);
        CoversOneMore(covered[0], Put(covered[1..], target, owner), t);
      }
    }
  }

  lemma NothingCovers(t: string)
    ensures !Covers([], t)
  {
  }

  /** A target is covered exactly when a listed sibling is pinned to it, and then by such a sibling. */
  lemma {:induction false} CoverageMeaning(branch: string, targets: seq<string>, all: seq<string>,
      strip: seq<string>, t: string)
    ensures Covers(CoverageUpTo(branch, targets, all, strip), t)
      <==> t in targets && exists other | other in all :: IsSiblingCut(branch, other, t, strip)
    ensures forall row | row in CoverageUpTo(branch, targets, all, strip) ::
      row.0 in targets && row.1 in all && IsSiblingCut(branch, row.1, row.0, strip)
    decreases |all|
  {
    hide SuffixTarget, FamilyStem, Put;
    if all != [] {
      var front, other := all[..|all| - 1], all[|all| - 1];
      CoverageMeaning(branch, targets, front, strip, t);
      assert forall x :: x in all <==> x in front || x == other;
      if OwnsATarget(branch, other, targets, strip) {
        PutCovers(CoverageUpTo(branch, targets, front, strip), SuffixTarget(other, strip).value, other, t);
      }
    }
  }

  /** Where a branch may land. */
  function TargetsFor(branch: string, baseBranch: string, defaults: seq<string>, strip: seq<string>): seq<string> {
    match SuffixTarget(branch, strip)
    case Some(pinned) => [pinned]
    case None => if baseBranch == "branch-3.5" then ["branch-3.5"] else defaults
  }

  /** A pin is the one target; without one, a branch cut from 3.5 goes back there, and any other everywhere. */
  lemma RoutedExactlyTo(branch: string, baseBranch: string, defaults: seq<string>, strip: seq<string>, t: string)
    ensures t in TargetsFor(branch, baseBranch, defaults, strip) <==>
      || SuffixTarget(branch, strip) == Some(t)
      || (SuffixTarget(branch, strip) == None && t == baseBranch == "branch-3.5")
      || (SuffixTarget(branch, strip) == None && baseBranch != "branch-3.5" && t in defaults)
  {
    hide SuffixTarget;
  }

  predicate Without(t: string, covered: Coverage) {
    forall i | 0 <= i < |covered| :: covered[i].0 != t
  }

  function Uncovered(targets: seq<string>, covered: Coverage): (rest: seq<string>)
    ensures forall t :: t in rest <==> t in targets && Without(t, covered)
  {
    if targets == [] then []
    else (if Without(targets[0], covered) then [targets[0]] else []) + Uncovered(targets[1..], covered)
  }

  /**
   What routing gives a branch splits exactly into what it keeps and what its listed pinned
   siblings own; a pinned branch gives nothing up.
   */
  lemma RoutingPartition(branch: string, baseBranch: string, defaults: seq<string>, all: seq<string>,
      strip: seq<string>, t: string)
    ensures
      var routed := TargetsFor(branch, baseBranch, defaults, strip);
      var covered := CoverageFor(branch, routed, all, strip);
      var kept := Uncovered(routed, covered);
      && (t in routed <==> t in kept || Covers(covered, t))
      && !(t in kept && Covers(covered, t))
      && (Covers(covered, t) ==> exists other | other in all ::
            IsSiblingCut(branch, other, t, strip) && TargetsFor(other, baseBranch, defaults, strip) == [t])
      && (SuffixTarget(branch, strip).Some? ==> kept == routed == [SuffixTarget(branch, strip).value])
  {
    var routed := TargetsFor(branch, baseBranch, defaults, strip);
    CoverageMeaning(branch, routed, all, strip, t);
  }

  // ------------------------------------------------------------ the branch list

  predicate Blank(c: char) { c == ' ' || c == '\t' || c == '\r' || c == '\n' }

  /** Everything in front of the first '#'. */
  function BeforeComment(line: string): string {
    if line == "" || line[0] == '#' then "" else [line[0]] + BeforeComment(line[1..])
  }

  function Words(line: string): (words: seq<string>)
    ensures forall i | 0 <= i < |words| :: words[i] != ""
  {
    if line == "" then []
    else if Blank(line[0]) then Words(line[1..])
    else
      var n := WordLength(line);
      [line[..n]] + Words(line[n..])
  }

  function WordLength(line: string): (n: nat)
    ensures n <= |line|
    ensures line != "" && !Blank(line[0]) ==> n > 0
  {
    if line == "" || Blank(line[0]) then 0 else 1 + WordLength(line[1..])
  }

  datatype Entry = Entry(name: string, base: Option<string>)

  function ReadEntry(line: string): Option<Entry> {
    var words := Words(BeforeComment(line));
    if words == [] then None else Some(Entry(words[0], if |words| > 1 then Some(words[1]) else None))
  }

  predicate AreBlank(s: string) { forall i | 0 <= i < |s| :: Blank(s[i]) }

  predicate IsWord(s: string) { s != "" && forall i | 0 <= i < |s| :: !Blank(s[i]) && s[i] != '#' }

  /** Nothing, or something set off by a blank. */
  predicate SetOff(s: string) { s == "" || Blank(s[0]) }

  lemma {:induction false} BeforeAnyComment(text: string, comment: string)
    requires '#' !in text && (comment == "" || comment[0] == '#')
    ensures BeforeComment(text + comment) == text
  {
    if text == "" {
      assert text + comment == comment;
    } else {
      assert (text + comment)[1..] == text[1..] + comment;
      BeforeAnyComment(text[1..], comment);
    }
  }

  lemma {:induction false} WordsBehindBlanks(blanks: string, rest: string)
    requires AreBlank(blanks)
    ensures Words(blanks + rest) == Words(rest)
  {
    if blanks == "" {
      assert blanks + rest == rest;
    } else {
      assert (blanks + rest)[1..] == blanks[1..] + rest;
      WordsBehindBlanks(blanks[1..], rest);
    }
  }

  lemma {:induction false} WordLengthIs(word: string, rest: string)
    requires (forall i | 0 <= i < |word| :: !Blank(word[i])) && SetOff(rest)
    ensures WordLength(word + rest) == |word|
  {
    if word == "" {
      assert word + rest == rest;
    } else {
      assert (word + rest)[1..] == word[1..] + rest;
      WordLengthIs(word[1..], rest);
    }
  }

  lemma WordFirst(word: string, rest: string)
    requires IsWord(word) && SetOff(rest)
    ensures Words(word + rest) == [word] + Words(rest)
  {
    WordLengthIs(word, rest);
    assert (word + rest)[..|word|] == word && (word + rest)[|word|..] == rest;
  }

  /**
   A line names a branch, and behind a blank the ref it is cut from; blanks around them, further
   columns and everything from a '#' on do not matter. A line of blanks or comment names nothing.
   */
  lemma EntryReadsBack(lead: string, name: string, gap: string, base: string, more: string, comment: string)
    requires AreBlank(lead) && IsWord(name) && AreBlank(gap) && gap != "" && IsWord(base)
    requires SetOff(more) && '#' !in more && (comment == "" || comment[0] == '#')
    ensures ReadEntry(lead + comment) == None
    ensures ReadEntry(lead + name + comment) == Some(Entry(name, None))
    ensures ReadEntry(lead + name + gap + comment) == Some(Entry(name, None))
    ensures ReadEntry(lead + name + gap + base + more + comment) == Some(Entry(name, Some(base)))
  {
    hide Words, BeforeComment;
    BeforeAnyComment(lead, comment);
    BeforeAnyComment(lead + name, comment);
    BeforeAnyComment(lead + name + gap, comment);
    BeforeAnyComment(lead + name + gap + base + more, comment);
    NoWords(lead);
    NoWords(gap);
    OneWord(lead, name, "");
    OneWord(lead, name, gap);
    OneWord(lead, name, gap + base + more);
    OneWord(gap, base, more);
    assert lead + name + "" == lead + name;
    assert lead + name + (gap + base + more) == lead + name + gap + base + more;
  }

  lemma NoWords(blanks: string)
    requires AreBlank(blanks)
    ensures Words(blanks) == [] && Words("") == []
  {
    WordsBehindBlanks(blanks, "");
    assert blanks + "" == blanks;
  }

  lemma OneWord(lead: string, word: string, rest: string)
    requires AreBlank(lead) && IsWord(word) && SetOff(rest)
    ensures Words(lead + word + rest) == [word] + Words(rest)
  {
    WordsBehindBlanks(lead, word + rest);
    WordFirst(word, rest);
    assert lead + word + rest == lead + (word + rest);
  }

  function Names(entries: seq<Entry>): (names: seq<string>)
    ensures |names| == |entries| && forall i | 0 <= i < |names| :: names[i] == entries[i].name
  {
    seq(|entries|, i requires 0 <= i < |entries| => entries[i].name)
  }

  /** A name listed twice counts once, where it is first mentioned. */
  function Listed(lines: seq<string>): seq<Entry> {
    if lines == [] then [] else
      var before := Listed(lines[..|lines| - 1]);
      match ReadEntry(lines[|lines| - 1])
      case None => before
      case Some(entry) => if entry.name in Names(before) then before else before + [entry]
  }

  method ParseBranchFile(lines: seq<string>) returns (out: seq<Entry>)
    ensures out == Listed(lines)
  {
    out := [];
    var seen: set<string> := {};
    for i := 0 to |lines|
      invariant out == Listed(lines[..i])
      invariant forall n :: n in seen <==> n in Names(out)
    {
      assert lines[..i + 1][..i] == lines[..i];
      match ReadEntry(lines[i])
      case None => continue;
      case Some(entry) =>
        if entry.name in seen { continue; }
        seen := seen + {entry.name};
        assert Names(out + [entry]) == Names(out) + [entry.name];
        out := out + [entry];
    }
    assert lines[..|lines|] == lines;
  }

  /** Line k is the first to name its branch. */
  ghost predicate FirstMention(lines: seq<string>, k: nat) {
    && k < |lines| && ReadEntry(lines[k]).Some?
    && forall j | 0 <= j < k && ReadEntry(lines[j]).Some? ::
         ReadEntry(lines[j]).value.name != ReadEntry(lines[k]).value.name
  }

  lemma {:induction false} ListedNames(lines: seq<string>)
    ensures Distinct(Names(Listed(lines)))
    ensures forall name :: name in Names(Listed(lines)) <==>
      exists k | 0 <= k < |lines| :: ReadEntry(lines[k]).Some? && ReadEntry(lines[k]).value.name == name
  {
    hide ReadEntry;
    if lines != [] {
      var n := |lines| - 1;
      var before := Listed(lines[..n]);
      ListedNames(lines[..n]);
      assert forall k | 0 <= k < n :: lines[..n][k] == lines[k];
      if ReadEntry(lines[n]).Some? {
        NamesOneMore(before, ReadEntry(lines[n]).value);
      }
      hide Names;
    }
  }

  lemma NamesOneMore(before: seq<Entry>, entry: Entry)
    ensures Names(before + [entry]) == Names(before) + [entry.name]
  {
  }

  /** The listed names are distinct, and are exactly the first mentions. */
  lemma {:induction false} ListedMeaning(lines: seq<string>)
    ensures Distinct(Names(Listed(lines)))
    ensures forall k | 0 <= k < |lines| && ReadEntry(lines[k]).Some? ::
      ReadEntry(lines[k]).value.name in Names(Listed(lines))
    ensures forall e :: e in Listed(lines) <==>
      exists k | 0 <= k < |lines| :: FirstMention(lines, k) && ReadEntry(lines[k]).value == e
  {
    hide ReadEntry, Distinct;
    ListedNames(lines);
    if lines != [] {
      var n := |lines| - 1;
      var front := lines[..n];
      ListedMeaning(front);
      ListedNames(front);
      forall k | 0 <= k < n ensures FirstMention(front, k) <==> FirstMention(lines, k) {
        assert forall j | 0 <= j < n :: front[j] == lines[j];
      }
      assert forall k | 0 <= k < n :: front[k] == lines[k];
      assert FirstMention(lines, n) <==>
        ReadEntry(lines[n]).Some? && ReadEntry(lines[n]).value.name !in Names(Listed(front));
    }
  }
}
