/** Fetching an image's missing layers side by side: up to three downloads in flight, unpacking on threads of their own,
    in whatever order they happen to advance. */
module LayerFetch {
  import opened Wrappers
  import opened StoreModel

  const MAX_CONCURRENT_DOWNLOADS := 3

  // How far the fetch of one layer has come. `next` is the first archive entry not yet unpacked.
  datatype Phase = Queued | Downloading | Downloaded | Cleared | Unpacking(next: nat) | Done | Failed

  // One thing happening to the i-th fetch. Breaks covers a failed download and a failed unpack alike.
  datatype Event =
    | Start(i: nat) | Arrives(i: nat) | Clears(i: nat) | Opens(i: nat)
    | Unpacks(i: nat) | Renames(i: nat) | Breaks(i: nat)

  datatype Fetches = Fetches(phases: seq<Phase>, stages: map<Stage, Tree>, layers: map<Digest, Tree>)

  predicate Flying(p: Phase) {
    !(p.Queued? || p.Done? || p.Failed?)
  }

  function InFlight(phases: seq<Phase>): nat {
    if phases == [] then 0
    else InFlight(phases[..|phases| - 1]) + if Flying(phases[|phases| - 1]) then 1 else 0
  }

  predicate Sized(pending: seq<Digest>, sizes: map<Digest, nat>) {
    forall i :: 0 <= i < |pending| ==> pending[i] in sizes
  }

  // Whether an event can happen now. Fetches start in order, a free slot permitting. Events after a failure are let
  // through, which is more than the code does: there the downloads stop and only running unpacks go on.
  predicate Enabled(f: Fetches, pending: seq<Digest>, sizes: map<Digest, nat>, e: Event)
    requires |f.phases| == |pending| && Sized(pending, sizes)
  {
    e.i < |pending| &&
    match e
    case Start(i) =>
      && f.phases[i].Queued? && InFlight(f.phases) < MAX_CONCURRENT_DOWNLOADS
      && forall j :: 0 <= j < i ==> !f.phases[j].Queued?
    case Arrives(i) => f.phases[i].Downloading?
    case Clears(i) => f.phases[i].Downloaded?
    case Opens(i) => f.phases[i].Cleared?
    case Unpacks(i) => f.phases[i].Unpacking? && f.phases[i].next < sizes[pending[i]]
    case Renames(i) => f.phases[i].Unpacking? && f.phases[i].next == sizes[pending[i]]
    case Breaks(i) => Flying(f.phases[i])
  }

  // A directory can be renamed over a missing or an empty one only.
  predicate CanRename(stages: map<Stage, Tree>, layers: map<Digest, Tree>, d: Digest) {
    Upper(d) in stages && (d in layers ==> layers[d] == {})
  }

  function TreeAt(stages: map<Stage, Tree>, s: Stage): Tree {
    if s in stages then stages[s] else {}
  }

  function Advance(f: Fetches, pending: seq<Digest>, sizes: map<Digest, nat>, e: Event): (r: Fetches)
    requires |f.phases| == |pending| && Sized(pending, sizes)
    ensures |r.phases| == |pending|
  {
    if !Enabled(f, pending, sizes, e) then f
    else
      var up := Upper(pending[e.i]);
      match e
      case Start(i) => f.(phases := f.phases[i := Downloading])
      case Arrives(i) => f.(phases := f.phases[i := Downloaded])
      case Clears(i) => f.(phases := f.phases[i := Cleared], stages := f.stages - {up})
      case Opens(i) => f.(phases := f.phases[i := Unpacking(0)], stages := f.stages[up := TreeAt(f.stages, up)])
      case Unpacks(i) =>
        var next := f.phases[i].next;
        f.(phases := f.phases[i := Unpacking(next + 1)], stages := f.stages[up := TreeAt(f.stages, up) + {next}])
      case Renames(i) =>
        if CanRename(f.stages, f.layers, pending[i]) then
          Fetches(f.phases[i := Done], f.stages - {up}, f.layers[pending[i] := f.stages[up]])
        else f.(phases := f.phases[i := Failed])
      case Breaks(i) => f.(phases := f.phases[i := Failed])
  }

  function Run(f: Fetches, pending: seq<Digest>, sizes: map<Digest, nat>, events: seq<Event>): (r: Fetches)
    requires |f.phases| == |pending| && Sized(pending, sizes)
    ensures |r.phases| == |pending|
  {
    if events == [] then f
    else Advance(Run(f, pending, sizes, events[..|events| - 1]), pending, sizes, events[|events| - 1])
  }

  function Fresh(pending: seq<Digest>, disk: Disk): Fetches {
    Fetches(seq(|pending|, i => Queued), disk.stages, disk.layers)
  }

  // ---- When interleaving is harmless ----

  // No layer with anything in it is listed twice: two fetches of it would share one staging directory.
  predicate NoneRepeated(pending: seq<Digest>, sizes: map<Digest, nat>)
    requires Sized(pending, sizes)
  {
    forall i, j :: 0 <= i < j < |pending| && pending[i] == pending[j] ==> sizes[pending[i]] == 0
  }

  predicate LayerWhole(layers: map<Digest, Tree>, sizes: map<Digest, nat>, d: Digest)
    requires d in sizes
  {
    d in layers ==> layers[d] == Whole(sizes[d])
  }

  predicate FetchInv(f: Fetches, pending: seq<Digest>, sizes: map<Digest, nat>)
    requires |f.phases| == |pending| && Sized(pending, sizes)
  {
    forall i :: 0 <= i < |pending| ==>
      && LayerWhole(f.layers, sizes, pending[i])
      && (f.phases[i].Done? ==> pending[i] in f.layers)
      && (f.phases[i].Cleared? ==> TreeAt(f.stages, Upper(pending[i])) == {})
      && (f.phases[i].Unpacking? ==>
            && f.phases[i].next <= sizes[pending[i]]
            && TreeAt(f.stages, Upper(pending[i])) == Whole(f.phases[i].next))
  }

  lemma {:induction false} AdvanceKeepsFetchInv(f: Fetches, pending: seq<Digest>, sizes: map<Digest, nat>, e: Event)
    requires |f.phases| == |pending| && Sized(pending, sizes) && NoneRepeated(pending, sizes)
    requires FetchInv(f, pending, sizes)
    ensures FetchInv(Advance(f, pending, sizes, e), pending, sizes)
  {
    if Enabled(f, pending, sizes, e) {
      var g := Advance(f, pending, sizes, e);
      forall i | 0 <= i < |pending|
        ensures LayerWhole(g.layers, sizes, pending[i])
        ensures g.phases[i].Done? ==> pending[i] in g.layers
        ensures g.phases[i].Cleared? ==> TreeAt(g.stages, Upper(pending[i])) == {}
        ensures g.phases[i].Unpacking? ==> g.phases[i].next <= sizes[pending[i]]
        ensures g.phases[i].Unpacking? ==> TreeAt(g.stages, Upper(pending[i])) == Whole(g.phases[i].next)
      {
        if i != e.i && pending[i] == pending[e.i] {
          assert sizes[pending[i]] == 0;
        }
      }
    }
  }

  // In every interleaving, with any fetches failing, what stands under a layer's final name is complete, nothing
  // already there is lost, and a fetch that reports success has its layer there.
  lemma {:induction false} InterleavingsAreSafe(
      f: Fetches, pending: seq<Digest>, sizes: map<Digest, nat>, events: seq<Event>)
    requires |f.phases| == |pending| && Sized(pending, sizes) && NoneRepeated(pending, sizes)
    requires FetchInv(f, pending, sizes)
    ensures var g := Run(f, pending, sizes, events);
      && FetchInv(g, pending, sizes)
      && (forall d :: d in f.layers ==> d in g.layers && g.layers[d] == f.layers[d])
      && (forall d :: d in g.layers && d !in pending ==> d in f.layers && g.layers[d] == f.layers[d])
  {
    if events != [] {
      var before := events[..|events| - 1];
      InterleavingsAreSafe(f, pending, sizes, before);
      AdvanceKeepsFetchInv(Run(f, pending, sizes, before), pending, sizes, events[|events| - 1]);
    }
  }

  // ---- When it is not ----

  lemma {:induction false} RunSplits(
      f: Fetches, pending: seq<Digest>, sizes: map<Digest, nat>, a: seq<Event>, b: seq<Event>)
    requires |f.phases| == |pending| && Sized(pending, sizes)
    ensures Run(f, pending, sizes, a + b) == Run(Run(f, pending, sizes, a), pending, sizes, b)
  {
    if b == [] {
      assert a + b == a;
    } else {
      assert (a + b)[..|a + b| - 1] == a + b[..|b| - 1];
      RunSplits(f, pending, sizes, a, b[..|b| - 1]);
    }
  }

  lemma RunNext(f: Fetches, pending: seq<Digest>, sizes: map<Digest, nat>, events: seq<Event>, e: Event)
    requires |f.phases| == |pending| && Sized(pending, sizes)
    ensures Run(f, pending, sizes, events + [e]) == Advance(Run(f, pending, sizes, events), pending, sizes, e)
  {
    assert (events + [e])[..|events|] == events;
  }

  function UnpackAll(i: nat, count: nat): seq<Event> {
    if count == 0 then [] else UnpackAll(i, count - 1) + [Unpacks(i)]
  }

  lemma {:induction false} UnpackingRuns(f: Fetches, pending: seq<Digest>, sizes: map<Digest, nat>, i: nat, count: nat)
    requires |f.phases| == |pending| && Sized(pending, sizes)
    requires i < |pending| && f.phases[i] == Unpacking(0) && count <= sizes[pending[i]]
    requires Upper(pending[i]) in f.stages && f.stages[Upper(pending[i])] == {}
    ensures Run(f, pending, sizes, UnpackAll(i, count)) ==
            f.(phases := f.phases[i := Unpacking(count)], stages := f.stages[Upper(pending[i]) := Whole(count)])
  {
    hide Run, Advance;
    if count == 0 {
      RunNothing(f, pending, sizes);
      assert f.phases[i := Unpacking(0)] == f.phases && f.stages[Upper(pending[i]) := {}] == f.stages;
    } else {
      UnpackingRuns(f, pending, sizes, i, count - 1);
      RunNext(f, pending, sizes, UnpackAll(i, count - 1), Unpacks(i));
      UnpackOne(f, pending, sizes, i, count - 1);
    }
  }

  lemma RunNothing(f: Fetches, pending: seq<Digest>, sizes: map<Digest, nat>)
    requires |f.phases| == |pending| && Sized(pending, sizes)
    ensures Run(f, pending, sizes, []) == f
  {
  }

  lemma UnpackOne(f: Fetches, pending: seq<Digest>, sizes: map<Digest, nat>, i: nat, n: nat)
    requires |f.phases| == |pending| && Sized(pending, sizes) && i < |pending| && n < sizes[pending[i]]
    ensures var up := Upper(pending[i]);
      Advance(f.(phases := f.phases[i := Unpacking(n)], stages := f.stages[up := Whole(n)]), pending, sizes, Unpacks(i))
      == f.(phases := f.phases[i := Unpacking(n + 1)], stages := f.stages[up := Whole(n + 1)])
  {
    var up := Upper(pending[i]);
    assert f.phases[i := Unpacking(n)][i := Unpacking(n + 1)] == f.phases[i := Unpacking(n + 1)];
    assert f.stages[up := Whole(n)][up := Whole(n + 1)] == f.stages[up := Whole(n + 1)];
  }

  lemma {:induction false} FewInFlight(phases: seq<Phase>, i: nat)
    requires forall m :: 0 <= m < |phases| && m != i ==> !Flying(phases[m])
    ensures InFlight(phases) <= if i < |phases| then 1 else 0
  {
    if phases != [] {
      FewInFlight(phases[..|phases| - 1], i);
    }
  }

  // One fetch run from start to finish with nothing else moving.
  lemma FetchAlone(f: Fetches, pending: seq<Digest>, sizes: map<Digest, nat>, k: nat) returns (events: seq<Event>)
    requires |f.phases| == |pending| && Sized(pending, sizes)
    requires k < |pending| && Enabled(f, pending, sizes, Start(k))
    requires pending[k] in f.layers ==> f.layers[pending[k]] == {}
    ensures Run(f, pending, sizes, events) ==
            Fetches(f.phases[k := Done], f.stages - {Upper(pending[k])}, f.layers[pending[k] := Whole(sizes[pending[k]])])
  {
    var d, up := pending[k], Upper(pending[k]);
    events := UnpackReady(f, pending, sizes, k);
    RunNext(f, pending, sizes, events, Renames(k));
    events := events + [Renames(k)];
    var g := Run(f, pending, sizes, events);
    assert g.phases == f.phases[k := Done];
    assert g.stages == f.stages - {up};
  }

  lemma UnpackReady(f: Fetches, pending: seq<Digest>, sizes: map<Digest, nat>, k: nat) returns (events: seq<Event>)
    requires |f.phases| == |pending| && Sized(pending, sizes)
    requires k < |pending| && Enabled(f, pending, sizes, Start(k))
    ensures Run(f, pending, sizes, events) ==
            f.(phases := f.phases[k := Unpacking(sizes[pending[k]])],
               stages := f.stages[Upper(pending[k]) := Whole(sizes[pending[k]])])
  {
    events := Arrived(f, pending, sizes, k);
    var g := Run(f, pending, sizes, events);
    var more := Unpacked(g, pending, sizes, k);
    RunSplits(f, pending, sizes, events, more);
    events := events + more;
    var h := Run(f, pending, sizes, events);
    assert h.phases == f.phases[k := Unpacking(sizes[pending[k]])];
  }

  lemma Arrived(f: Fetches, pending: seq<Digest>, sizes: map<Digest, nat>, k: nat) returns (events: seq<Event>)
    requires |f.phases| == |pending| && Sized(pending, sizes)
    requires k < |pending| && Enabled(f, pending, sizes, Start(k))
    ensures Run(f, pending, sizes, events) == f.(phases := f.phases[k := Downloaded])
  {
    events := [];
    assert Run(f, pending, sizes, []) == f;
    RunNext(f, pending, sizes, [], Start(k));
    RunNext(f, pending, sizes, [] + [Start(k)], Arrives(k));
    events := [] + [Start(k)] + [Arrives(k)];
    assert f.phases[k := Downloading][k := Downloaded] == f.phases[k := Downloaded];
  }

  lemma Unpacked(f: Fetches, pending: seq<Digest>, sizes: map<Digest, nat>, k: nat) returns (events: seq<Event>)
    requires |f.phases| == |pending| && Sized(pending, sizes)
    requires k < |pending| && f.phases[k].Downloaded?
    ensures Run(f, pending, sizes, events) ==
            f.(phases := f.phases[k := Unpacking(sizes[pending[k]])],
               stages := f.stages[Upper(pending[k]) := Whole(sizes[pending[k]])])
  {
    var up, n := Upper(pending[k]), sizes[pending[k]];
    var ready := Opened(f, pending, sizes, k);
    var g := Run(f, pending, sizes, ready);
    UnpackingRuns(g, pending, sizes, k, n);
    RunSplits(f, pending, sizes, ready, UnpackAll(k, n));
    events := ready + UnpackAll(k, n);
    assert f.phases[k := Unpacking(0)][k := Unpacking(n)] == f.phases[k := Unpacking(n)];
    assert f.stages[up := {}][up := Whole(n)] == f.stages[up := Whole(n)];
  }

  lemma Opened(f: Fetches, pending: seq<Digest>, sizes: map<Digest, nat>, k: nat) returns (events: seq<Event>)
    requires |f.phases| == |pending| && Sized(pending, sizes)
    requires k < |pending| && f.phases[k].Downloaded?
    ensures Run(f, pending, sizes, events) ==
            f.(phases := f.phases[k := Unpacking(0)], stages := f.stages[Upper(pending[k]) := {}])
  {
    var up := Upper(pending[k]);
    var g := f.(phases := f.phases[k := Cleared], stages := f.stages - {up});
    RunNext(f, pending, sizes, [], Clears(k));
    var cleared := [] + [Clears(k)];
    assert Run(f, pending, sizes, cleared) == g;
    RunNext(f, pending, sizes, cleared, Opens(k));
    events := cleared + [Opens(k)];
    assert g.phases[k := Unpacking(0)] == f.phases[k := Unpacking(0)];
    assert g.stages[up := {}] == f.stages[up := {}];
  }

  predicate FetchedBefore(pending: seq<Digest>, i: nat, k: nat, d: Digest) {
    exists l :: 0 <= l < k && l < |pending| && l != i && pending[l] == d
  }

  // The state in which the fetch of layer i waits, downloaded, and every other fetch before k has finished.
  predicate Paused(f: Fetches, pending: seq<Digest>, sizes: map<Digest, nat>, i: nat, k: nat)
    requires |f.phases| == |pending| && Sized(pending, sizes)
  {
    && (forall m :: 0 <= m < |pending| ==>
          f.phases[m] == if m >= k then Queued else if m == i then Downloaded else Done)
    && (forall m :: 0 <= m < |pending| && pending[m] in f.layers ==>
          f.layers[pending[m]] == Whole(sizes[pending[m]])
          && FetchedBefore(pending, i, k, pending[m]))
  }

  predicate FirstRepeat(pending: seq<Digest>, sizes: map<Digest, nat>, i: nat, j: nat)
    requires Sized(pending, sizes)
  {
    && i < j < |pending| && pending[i] == pending[j] && sizes[pending[i]] > 0
    && NoneRepeated(pending[..j], sizes)
  }

  lemma {:induction false} PauseAt(f: Fetches, pending: seq<Digest>, sizes: map<Digest, nat>, i: nat, j: nat, k: nat)
    returns (events: seq<Event>)
    requires |f.phases| == |pending| && Sized(pending, sizes) && FirstRepeat(pending, sizes, i, j) && k <= j
    requires forall m :: 0 <= m < |pending| ==> f.phases[m].Queued? && pending[m] !in f.layers
    ensures Paused(Run(f, pending, sizes, events), pending, sizes, i, k)
    decreases k
  {
    hide Run, InFlight, Advance;
    if k == 0 {
      events := [];
      RunNothing(f, pending, sizes);
    } else {
      events := PauseAt(f, pending, sizes, i, j, k - 1);
      var g := Run(f, pending, sizes, events);
      PausedCanStart(g, pending, sizes, i, k - 1);
      var more;
      if k - 1 == i {
        more := Arrived(g, pending, sizes, i);
      } else {
        NotYetThere(g, pending, sizes, i, j, k - 1);
        more := FetchAlone(g, pending, sizes, k - 1);
      }
      RunSplits(f, pending, sizes, events, more);
      events := events + more;
      StillPaused(g, Run(f, pending, sizes, events), pending, sizes, i, k);
    }
  }

  lemma PausedCanStart(g: Fetches, pending: seq<Digest>, sizes: map<Digest, nat>, i: nat, k: nat)
    requires |g.phases| == |pending| && Sized(pending, sizes) && k < |pending| && Paused(g, pending, sizes, i, k)
    ensures Enabled(g, pending, sizes, Start(k))
  {
    hide FetchedBefore;
    FewInFlight(g.phases, i);
  }

  lemma NotYetThere(g: Fetches, pending: seq<Digest>, sizes: map<Digest, nat>, i: nat, j: nat, k: nat)
    requires |g.phases| == |pending| && Sized(pending, sizes) && FirstRepeat(pending, sizes, i, j)
    requires k <= j && k != i && Paused(g, pending, sizes, i, k)
    ensures k < j && pending[k] in g.layers ==> g.layers[pending[k]] == {}
    ensures k == j ==> pending[k] !in g.layers
  {
    var before := pending[..j];
    assert forall m :: 0 <= m < j ==> before[m] == pending[m];
    if pending[k] in g.layers {
      assert FetchedBefore(pending, i, k, pending[k]);
    }
  }

  lemma StillPaused(g: Fetches, h: Fetches, pending: seq<Digest>, sizes: map<Digest, nat>, i: nat, k: nat)
    requires |g.phases| == |h.phases| == |pending| && Sized(pending, sizes)
    requires 0 < k <= |pending| && Paused(g, pending, sizes, i, k - 1)
    requires if k - 1 == i then h.layers == g.layers
             else h.layers == g.layers[pending[k - 1] := Whole(sizes[pending[k - 1]])]
    requires h.phases == g.phases[k - 1 := if k - 1 == i then Downloaded else Done]
    ensures Paused(h, pending, sizes, i, k)
  {
    forall m | 0 <= m < |pending| && pending[m] in h.layers
      ensures h.layers[pending[m]] == Whole(sizes[pending[m]]) && FetchedBefore(pending, i, k, pending[m])
    {
      if pending[m] in g.layers {
        assert FetchedBefore(pending, i, k - 1, pending[m]);
      } else {
        assert pending[k - 1] == pending[m];
      }
    }
  }

  // With the i-th and the j-th fetch of the same layer both downloaded, the second to start unpacking empties the
  // directory the first is about to rename.
  lemma Clash(g: Fetches, pending: seq<Digest>, sizes: map<Digest, nat>, i: nat, j: nat) returns (events: seq<Event>)
    requires |g.phases| == |pending| && Sized(pending, sizes) && i < j < |pending| && pending[i] == pending[j]
    requires g.phases[i].Downloaded? && Enabled(g, pending, sizes, Start(j)) && pending[i] !in g.layers
    ensures pending[i] in Run(g, pending, sizes, events).layers
    ensures Run(g, pending, sizes, events).layers[pending[i]] == {}
  {
    var a := Arrived(g, pending, sizes, j);
    var g1 := Run(g, pending, sizes, a);
    var b := Unpacked(g1, pending, sizes, i);
    var g2 := Run(g1, pending, sizes, b);
    var c := Opened(g2, pending, sizes, j);
    var g3 := Run(g2, pending, sizes, c);
    RunSplits(g, pending, sizes, a, b);
    RunSplits(g, pending, sizes, a + b, c);
    RunNext(g, pending, sizes, a + b + c, Renames(i));
    events := a + b + c + [Renames(i)];
    assert g3.phases[i] == Unpacking(sizes[pending[i]]);
    assert CanRename(g3.stages, g3.layers, pending[i]);
  }

  lemma {:induction false} FindFirstRepeat(pending: seq<Digest>, sizes: map<Digest, nat>, n: nat) returns (i: nat, j: nat)
    requires Sized(pending, sizes) && n <= |pending| && !NoneRepeated(pending[..n], sizes)
    ensures FirstRepeat(pending, sizes, i, j)
    decreases n
  {
    if n > 0 && !NoneRepeated(pending[..n - 1], sizes) {
      i, j := FindFirstRepeat(pending, sizes, n - 1);
    } else {
      var shown := pending[..n];
      var shorter := pending[..n - 1];
      assert forall m :: 0 <= m < |shorter| ==> shorter[m] == shown[m];
      i, j :| 0 <= i < j < |shown| && shown[i] == shown[j] && sizes[shown[i]] > 0;
      assert pending[..j] == shorter;
    }
  }

  ghost predicate EveryScheduleSafe(pending: seq<Digest>, sizes: map<Digest, nat>, disk: Disk)
    requires Sized(pending, sizes)
  {
    forall events: seq<Event> ::
      var g := Run(Fresh(pending, disk), pending, sizes, events);
      forall m :: 0 <= m < |pending| ==> LayerWhole(g.layers, sizes, pending[m])
  }

  // Exactly when fetching side by side never shows a half-unpacked layer under its final name.
  lemma SafeExactlyWhenNoneRepeated(pending: seq<Digest>, sizes: map<Digest, nat>, disk: Disk)
    requires Sized(pending, sizes)
    requires forall m :: 0 <= m < |pending| ==> pending[m] !in disk.layers
    ensures EveryScheduleSafe(pending, sizes, disk) <==> NoneRepeated(pending, sizes)
  {
    var f := Fresh(pending, disk);
    if NoneRepeated(pending, sizes) {
      forall events: seq<Event>
        ensures FetchInv(Run(f, pending, sizes, events), pending, sizes)
      {
        InterleavingsAreSafe(f, pending, sizes, events);
      }
    } else {
      assert pending[..|pending|] == pending;
      var i, j := FindFirstRepeat(pending, sizes, |pending|);
      var a := PauseAt(f, pending, sizes, i, j, j);
      var g := Run(f, pending, sizes, a);
      NotYetThere(g, pending, sizes, i, j, j);
      FewInFlight(g.phases, i);
      var b := Clash(g, pending, sizes, i, j);
      RunSplits(f, pending, sizes, a, b);
      var h := Run(f, pending, sizes, a + b);
      assert 0 in Whole(sizes[pending[i]]) by { HasFirst(sizes[pending[i]]); }
      assert !LayerWhole(h.layers, sizes, pending[i]);
    }
  }

  lemma {:induction false} HasFirst(n: nat)
    requires n > 0
    ensures 0 in Whole(n)
  {
    if n > 1 {
      HasFirst(n - 1);
    }
  }

  // ---- That fetches can work, and how many go on at once ----

  // A fetch in flight is one that has begun and not ended.
  predicate Going(phases: seq<Phase>, i: int) {
    0 <= i < |phases| && !phases[i].Queued? && !phases[i].Done? && !phases[i].Failed?
  }

  // A fetch may start when it is the first not to have begun and fewer than three others are going.
  lemma StartsInPlainTerms(f: Fetches, pending: seq<Digest>, sizes: map<Digest, nat>, i: nat)
    requires |f.phases| == |pending| && Sized(pending, sizes)
    ensures Enabled(f, pending, sizes, Start(i)) <==>
              && i < |pending| && f.phases[i].Queued? && (forall j :: 0 <= j < i ==> !f.phases[j].Queued?)
              && !exists a, b, c :: a != b && b != c && a != c && Going(f.phases, a) && Going(f.phases, b)
                                    && Going(f.phases, c)
  {
    hide InFlight;
    ThreeCount(f.phases);
    if InFlight(f.phases) >= 3 {
      var a, b, c := ThreeGoing(f.phases);
    }
  }

  lemma ThreeCount(phases: seq<Phase>)
    ensures (exists a, b, c :: a != b && b != c && a != c && Going(phases, a) && Going(phases, b) && Going(phases, c)) ==>
              InFlight(phases) >= 3
  {
    hide InFlight;
    if a, b, c :| a != b && b != c && a != c && Going(phases, a) && Going(phases, b) && Going(phases, c) {
      InFlightChanges(phases, a, Queued);
      InFlightChanges(phases[a := Queued], b, Queued);
      InFlightChanges(phases[a := Queued][b := Queued], c, Queued);
    }
  }

  lemma ThreeGoing(phases: seq<Phase>) returns (a: nat, b: nat, c: nat)
    requires InFlight(phases) >= 3
    ensures a != b && b != c && a != c && Going(phases, a) && Going(phases, b) && Going(phases, c)
  {
    hide InFlight;
    a := OneInFlight(phases);
    InFlightChanges(phases, a, Queued);
    b := OneInFlight(phases[a := Queued]);
    InFlightChanges(phases[a := Queued], b, Queued);
    c := OneInFlight(phases[a := Queued][b := Queued]);
  }

  lemma {:induction false} OneInFlight(phases: seq<Phase>) returns (i: nat)
    requires InFlight(phases) > 0
    ensures i < |phases| && Flying(phases[i])
  {
    if Flying(phases[|phases| - 1]) {
      i := |phases| - 1;
    } else {
      i := OneInFlight(phases[..|phases| - 1]);
    }
  }

  // Never more than three downloads or unpacks are under way.
  lemma AtMostThreeAtOnce(pending: seq<Digest>, sizes: map<Digest, nat>, disk: Disk, events: seq<Event>,
                          a: nat, b: nat, c: nat, d: nat)
    requires Sized(pending, sizes) && a < b < c < d
    ensures var phases := Run(Fresh(pending, disk), pending, sizes, events).phases;
      !(Going(phases, a) && Going(phases, b) && Going(phases, c) && Going(phases, d))
  {
    hide InFlight, Run;
    var phases := Run(Fresh(pending, disk), pending, sizes, events).phases;
    RunKeepsThree(pending, sizes, disk, events);
    if Going(phases, a) && Going(phases, b) && Going(phases, c) && Going(phases, d) {
      InFlightChanges(phases, a, Queued);
      InFlightChanges(phases[a := Queued], b, Queued);
      InFlightChanges(phases[a := Queued][b := Queued], c, Queued);
      InFlightChanges(phases[a := Queued][b := Queued][c := Queued], d, Queued);
    }
  }

  lemma {:induction false} RunKeepsThree(pending: seq<Digest>, sizes: map<Digest, nat>, disk: Disk, events: seq<Event>)
    requires Sized(pending, sizes)
    ensures InFlight(Run(Fresh(pending, disk), pending, sizes, events).phases) <= 3
  {
    if events == [] {
      FewInFlight(Fresh(pending, disk).phases, |pending|);
    } else {
      var f := Run(Fresh(pending, disk), pending, sizes, events[..|events| - 1]);
      RunKeepsThree(pending, sizes, disk, events[..|events| - 1]);
      AdvanceKeepsThree(f, pending, sizes, events[|events| - 1]);
    }
  }

  lemma AdvanceKeepsThree(f: Fetches, pending: seq<Digest>, sizes: map<Digest, nat>, e: Event)
    requires |f.phases| == |pending| && Sized(pending, sizes) && InFlight(f.phases) <= 3
    ensures InFlight(Advance(f, pending, sizes, e).phases) <= 3
  {
    hide InFlight;
    if Enabled(f, pending, sizes, e) {
      InFlightChanges(f.phases, e.i, Advance(f, pending, sizes, e).phases[e.i]);
    }
  }

  lemma {:induction false} InFlightChanges(phases: seq<Phase>, i: nat, next: Phase)
    requires i < |phases|
    ensures InFlight(phases[i := next]) ==
            InFlight(phases) + (if Flying(next) then 1 else 0) - (if Flying(phases[i]) then 1 else 0)
  {
    var after := phases[i := next];
    if i == |phases| - 1 {
      assert after[..|phases| - 1] == phases[..|phases| - 1];
    } else {
      InFlightChanges(phases[..|phases| - 1], i, next);
      assert after[..|phases| - 1] == phases[..|phases| - 1][i := next];
    }
  }

  // Every manifest whose missing layers repeat nothing can be fetched: with no failures and the fetches one after another
  // all of it arrives.
  lemma {:induction false} AllCanArrive(pending: seq<Digest>, sizes: map<Digest, nat>, disk: Disk, k: nat)
    returns (events: seq<Event>)
    requires Sized(pending, sizes) && NoneRepeated(pending, sizes) && k <= |pending|
    requires forall m :: 0 <= m < |pending| ==> pending[m] !in disk.layers
    ensures ArrivedUpTo(Run(Fresh(pending, disk), pending, sizes, events), pending, sizes, disk, k)
  {
    hide Run, InFlight;
    var f := Fresh(pending, disk);
    if k == 0 {
      events := [];
      RunNothing(f, pending, sizes);
    } else {
      events := AllCanArrive(pending, sizes, disk, k - 1);
      var g := Run(f, pending, sizes, events);
      NextCanArrive(g, pending, sizes, disk, k - 1);
      var more := FetchAlone(g, pending, sizes, k - 1);
      RunSplits(f, pending, sizes, events, more);
      events := events + more;
      NowArrived(g, Run(f, pending, sizes, events), pending, sizes, disk, k);
    }
  }

  // The first k fetches are done and their layers whole, and the others have not begun.
  predicate ArrivedUpTo(g: Fetches, pending: seq<Digest>, sizes: map<Digest, nat>, disk: Disk, k: nat)
    requires Sized(pending, sizes)
  {
    && |g.phases| == |pending| && k <= |pending|
    && (forall m :: 0 <= m < |pending| ==> g.phases[m] == if m < k then Done else Queued)
    && (forall m :: 0 <= m < k ==> pending[m] in g.layers && g.layers[pending[m]] == Whole(sizes[pending[m]]))
    && (forall d :: d in g.layers ==> d in disk.layers || d in pending[..k])
  }

  lemma NextCanArrive(g: Fetches, pending: seq<Digest>, sizes: map<Digest, nat>, disk: Disk, k: nat)
    requires Sized(pending, sizes) && NoneRepeated(pending, sizes) && k < |pending|
    requires ArrivedUpTo(g, pending, sizes, disk, k) && pending[k] !in disk.layers
    ensures Enabled(g, pending, sizes, Start(k))
    ensures pending[k] in g.layers ==> g.layers[pending[k]] == {}
  {
    forall m | 0 <= m < |pending| ensures !Flying(g.phases[m]) {
      assert g.phases[m] == if m < k then Done else Queued;
    }
    FewInFlight(g.phases, |pending|);
    if pending[k] in g.layers {
      var m :| 0 <= m < k && pending[..k][m] == pending[k];
      assert sizes[pending[m]] == 0;
    }
  }

  lemma NowArrived(g: Fetches, h: Fetches, pending: seq<Digest>, sizes: map<Digest, nat>, disk: Disk, k: nat)
    requires Sized(pending, sizes) && 0 < k <= |pending| && ArrivedUpTo(g, pending, sizes, disk, k - 1)
    requires h.phases == g.phases[k - 1 := Done]
    requires h.layers == g.layers[pending[k - 1] := Whole(sizes[pending[k - 1]])]
    ensures ArrivedUpTo(h, pending, sizes, disk, k)
  {
    assert pending[..k] == pending[..k - 1] + [pending[k - 1]];
  }
}
