/** `pull`: which apps contact the registry for which image, and what that leaves in the store. */
module UpdateLoop {
  import opened Wrappers
  import opened StoreNames
  import opened StoreModel
  import opened StoreClean
  import opened LayerFetch
  import opened ImageSpec
  import opened ImageStore

  // One call of `ensure`, for the i-th app, and the store it found.
  datatype Try = Try(i: nat, update: bool, ok: bool, found: World)

  function ImageOf(app: App): string {
    if app.whole.Some? then app.whole.value else app.reference
  }

  // The apps whose image a call of `ensure` fetches at all.
  predicate Pulls(app: App, rebuild: bool) {
    app.pull && (!app.install || rebuild)
  }

  // Some try among the first n already refreshed this image.
  predicate Refreshed(apps: seq<App>, tries: seq<Try>, n: nat, image: string, rebuild: bool)
    requires n <= |tries| && forall t :: 0 <= t < |tries| ==> tries[t].i < |apps|
  {
    exists t :: 0 <= t < n && tries[t].ok && Pulls(apps[tries[t].i], rebuild) && ImageOf(apps[tries[t].i]) == image
  }

  predicate Considered(app: App, refs: map<Marker, RefText>) {
    app.loads && ImageKey(app).Some? && MarkerName(ImageKey(app).value) in refs
  }

  predicate Tried(tries: seq<Try>, i: nat) {
    exists t :: 0 <= t < |tries| && tries[t].i == i
  }

  predicate Fails(tries: seq<Try>, i: nat) {
    exists t :: 0 <= t < |tries| && tries[t].i == i && !tries[t].ok
  }

  // Tries name apps, each at most once and in order.
  predicate InOrder(tries: seq<Try>, n: nat) {
    && (forall t :: 0 <= t < |tries| ==> tries[t].i < n)
    && (forall s, t :: 0 <= s < t < |tries| ==> tries[s].i < tries[t].i)
  }

  // A try asks for an update exactly when no earlier try has refreshed the image.
  predicate UpdatesOnce(apps: seq<App>, tries: seq<Try>, rebuild: bool)
    requires InOrder(tries, |apps|)
  {
    forall t :: 0 <= t < |tries| ==>
      (tries[t].update <==> !Refreshed(apps, tries, t, ImageOf(apps[tries[t].i]), rebuild))
  }

  // ---- The world outside ----

  // What the n-th app of a command meets: the registry's answer, the order its downloads advance in, the name of its
  // build and how its script fares. Answers and names may depend on everything stored so far.
  datatype Surroundings = Surroundings(
    answer: (World, nat) -> Option<Answer>, events: nat -> seq<Event>, id: (World, nat) -> string, script: nat -> Script)

  // Registries keep to content addressing and build names are fresh, whatever the store has come to.
  ghost predicate Fair(s: Surroundings) {
    forall w: World, n: nat :: Admits(w, s.answer(w, n), s.id(w, n))
  }

  // A `pull --update`: the apps in the order they are seen to, whether built images are to be rebuilt, and what it meets.
  datatype Plan = Plan(apps: seq<App>, rebuild: bool, outside: Surroundings)

  function AnswerTo(plan: Plan, t: Try): Option<Answer> {
    plan.outside.answer(t.found, t.i)
  }

  // What comes of one try.
  function Outcome(plan: Plan, t: Try): Ensured
    requires t.i < |plan.apps|
  {
    EnsureApp(t.found, plan.apps[t.i], t.update, plan.rebuild, AnswerTo(plan, t), plan.outside.events(t.i),
              plan.outside.id(t.found, t.i), plan.outside.script(t.i))
  }

  // Only recorded apps are tried, tries go wrong only when they have to, and nothing else touches the refs meanwhile.
  predicate Chained(plan: Plan, tries: seq<Try>, first: map<Marker, RefText>, last: map<Marker, RefText>)
    requires InOrder(tries, |plan.apps|)
  {
    if tries == [] then last == first
    else
      var t := tries[|tries| - 1];
      && Chained(plan, tries[..|tries| - 1], first, t.found.disk.refs)
      && Considered(plan.apps[t.i], t.found.disk.refs)
      && t.ok == Outcome(plan, t).ok && last == Outcome(plan, t).refs
  }

  // The stores the tries found are ones this store has been through.
  ghost predicate Passed(origin: World, log: seq<Step>, from: nat, tries: seq<Try>) {
    forall t :: 0 <= t < |tries| ==> PassedThrough(origin, log, from, tries[t].found)
  }

  ghost predicate PassedThrough(origin: World, log: seq<Step>, from: nat, w: World) {
    exists k: nat :: from <= k <= |log| && w == Replay(origin, log[..k])
  }

  // What a try that was to update this image got from the registry for it is what the store has for it now.
  predicate Current(plan: Plan, disk: Disk, tries: seq<Try>, image: string)
    requires InOrder(tries, |plan.apps|)
  {
    exists t :: 0 <= t < |tries| && Updates(plan, tries[t], image) && AnswerTo(plan, tries[t]).Some? &&
                Shows(disk, image, AnswerTo(plan, tries[t]).value)
  }

  predicate Updates(plan: Plan, t: Try, image: string)
    requires t.i < |plan.apps|
  {
    t.update && t.ok && Pulls(plan.apps[t.i], plan.rebuild) && ImageOf(plan.apps[t.i]) == image
  }

  // There is always a name to be had, so nothing about build names stands in a registry's way.
  lemma FreshNameExists(w: World, answer: Option<Answer>) returns (id: string)
    requires answer.Some? ==> Consistent(w.truth, answer.value) && Fetchable(w.disk, answer.value)
    ensures Admits(w, answer, id)
  {
    var taken := w.truth.docs.Keys + w.truth.sizes.Keys + w.disk.blobs.Keys + w.disk.layers.Keys
      + (set s | s in w.disk.stages :: s.digest)
      + if answer.None? then {}
        else {answer.value.digest, answer.value.manifest.config} + set l | l in answer.value.manifest.layers;
    var n := LongerThanAll(taken);
    id := seq(n + 1, _ => 'a');
    var d := BuildDigest(id);
    assert |d| > n;
    assert d !in taken;
    assert Upper(d) in w.disk.stages ==> Upper(d).digest in taken;
    assert Work(d) in w.disk.stages ==> Work(d).digest in taken;
  }

  lemma {:induction false} LongerThanAll(names: set<string>) returns (n: nat)
    ensures forall s :: s in names ==> |s| <= n
  {
    n := 0;
    if names != {} {
      var s :| s in names;
      n := LongerThanAll(names - {s});
      n := if |s| > n then |s| else n;
    }
  }

  ghost function FreshName(w: World, answer: Option<Answer>): (id: string)
    requires answer.Some? ==> Consistent(w.truth, answer.value) && Fetchable(w.disk, answer.value)
    ensures Admits(w, answer, id)
  {
    assert exists id :: Admits(w, answer, id) by {
      var id := FreshNameExists(w, answer);
    }
    var id :| Admits(w, answer, id);
    id
  }

  // What a registry can say without giving a digest a second meaning, or sending a layer twice.
  function Honest(w: World, answer: Option<Answer>): Option<Answer> {
    if answer.Some? && Consistent(w.truth, answer.value) && Fetchable(w.disk, answer.value) then answer else None
  }

  // Whatever registries would answer, downloads and scripts do, there are surroundings to be met with in which each
  // answer comes whenever it can, whatever store an app finds.
  lemma FairExists(answers: nat -> Option<Answer>, events: nat -> seq<Event>, script: nat -> Script)
    returns (s: Surroundings)
    ensures Fair(s) && s.events == events && s.script == script
    ensures forall w: World, n: nat :: s.answer(w, n) == Honest(w, answers(n))
  {
    s := Surroundings((w: World, n: nat) => Honest(w, answers(n)), events,
                      (w: World, n: nat) => FreshName(w, Honest(w, answers(n))), script);
    forall w: World, n: nat ensures Admits(w, s.answer(w, n), s.id(w, n)) {
      hide Admits, Honest;
      assert s.id(w, n) == FreshName(w, Honest(w, answers(n)));
    }
  }

  // ---- The command ----

  // `pull --update`.
  method PullUpdate(store: Store, plan: Plan) returns (failed: seq<nat>, ghost tries: seq<Try>)
    requires store.Valid() && Fair(plan.outside)
    requires forall i :: 0 <= i < |plan.apps| && plan.apps[i].loads ==> WellNamed(plan.apps[i])
    modifies store
    ensures store.Valid() && store.origin == old(store.origin) && old(store.log) <= store.log
    ensures InOrder(tries, |plan.apps|)
    // Every app that loads and whose image is recorded to begin with is tried, and none is whose image is not recorded
    // when it comes up; failures are reported, and nothing else is.
    ensures forall i :: 0 <= i < |plan.apps| && plan.apps[i].loads &&
                        (if plan.apps[i].install then
                           MarkerName("localhost/climate/" + plan.apps[i].name) in old(store.disk).refs
                         else plan.apps[i].whole.Some? && MarkerName(plan.apps[i].whole.value) in old(store.disk).refs) ==>
              exists t :: 0 <= t < |tries| && tries[t].i == i
    ensures forall t :: 0 <= t < |tries| ==>
              var (app, refs) := (plan.apps[tries[t].i], tries[t].found.disk.refs);
              app.loads && if app.install then MarkerName("localhost/climate/" + app.name) in refs
                           else app.whole.Some? && MarkerName(app.whole.value) in refs
    ensures forall i :: i in failed <==> exists t :: 0 <= t < |tries| && tries[t].i == i && !tries[t].ok
    // An app whose image is all there is to it never fails once an earlier one has refreshed that image.
    ensures forall s, t :: 0 <= s < t < |tries| && SharesRefreshed(plan, tries[s], tries[t]) ==> tries[t].i !in failed
    ensures UpdatesOnce(plan.apps, tries, plan.rebuild)
    ensures Chained(plan, tries, old(store.disk).refs, store.disk.refs)
    ensures Passed(store.origin, store.log, |old(store.log)|, tries)
    // Nothing is left for another collection.
    ensures store.disk == Collected(store.disk)
    // For an app whose image is pulled and that is not reported failed, the store ends up with what the registry sent
    // for that image during this very command, all of it, garbage collection over.
    ensures forall i :: 0 <= i < |plan.apps| && Considered(plan.apps[i], old(store.disk).refs)
                        && Pulls(plan.apps[i], plan.rebuild) && i !in failed ==>
              Current(plan, store.disk, tries, ImageOf(plan.apps[i]))
  {
    hide Progress, EnsureApp, Based, Grown, Current, Considered, Pulls, Admits, WellNamed, Replay, Legal, Chained, Holds,
         Shows, BuiltOn;
    failed, tries := [], [];
    var updated: set<string> := {};
    NothingTried(plan, store.disk);
    for n := 0 to |plan.apps|
      invariant store.Valid() && store.origin == old(store.origin) && old(store.log) <= store.log
      invariant Passed(store.origin, store.log, |old(store.log)|, tries)
      invariant Progress(plan, old(store.disk).refs, n, store.disk, updated, failed, tries)
    {
      var app := plan.apps[n];
      if Considered(app, store.disk.refs) {
        var image := ImageOf(app);
        var update := image !in updated;
        var (answer, id) := (plan.outside.answer(store.Now(), n), plan.outside.id(store.Now(), n));
        ghost var found, logged := store.Now(), store.log;
        assert Admits(found, answer, id);
        ConsideredLoads(app, store.disk.refs);
        var ok := store.Ensure(app, update, plan.rebuild, answer, plan.outside.events(n), id, plan.outside.script(n));
        ghost var t := Try(n, update, ok, found);
        SeenTo(plan, old(store.disk).refs, store.disk, updated, failed, tries, t);
        PassedOnwards(store.origin, logged, store.log, |old(store.log)|, tries, t);
        tries := tries + [t];
        if !ok {
          failed := failed + [n];
        } else if Pulls(app, plan.rebuild) {
          updated := updated + {image};
        }
      } else {
        PassedOver(plan, old(store.disk).refs, n, store.disk, updated, failed, tries);
      }
    }
    Finished(plan, old(store.disk).refs, store.disk, updated, failed, tries);
    InPlainTerms(plan, old(store.disk).refs, store.disk.refs, failed, tries);
    ghost var refreshed, logged := store.disk, store.log;
    store.GcImages();
    CollectingTwiceIsOnce(refreshed);
    store.ValidMeansInv();
    StillPassed(store.origin, logged, store.log, |old(store.log)|, tries);
    forall i | 0 <= i < |plan.apps| && Considered(plan.apps[i], old(store.disk).refs)
               && Pulls(plan.apps[i], plan.rebuild) && i !in failed
      ensures Current(plan, store.disk, tries, ImageOf(plan.apps[i]))
    {
      CollectingKeepsCurrent(plan, refreshed, store.Now(), tries, ImageOf(plan.apps[i]));
    }
  }

  // The earlier try refreshed the image that is all the later one's app needs.
  predicate SharesRefreshed(plan: Plan, earlier: Try, later: Try)
    requires earlier.i < |plan.apps| && later.i < |plan.apps|
  {
    var (a, b) := (plan.apps[earlier.i], plan.apps[later.i]);
    && earlier.ok && a.pull && (!a.install || plan.rebuild)
    && b.pull && !b.install && a.whole == b.whole
  }

  lemma InPlainTerms(plan: Plan, first: map<Marker, RefText>, last: map<Marker, RefText>, failed: seq<nat>, tries: seq<Try>)
    requires InOrder(tries, |plan.apps|) && Chained(plan, tries, first, last)
    requires UpdatesOnce(plan.apps, tries, plan.rebuild)
    requires forall i :: 0 <= i < |plan.apps| && Considered(plan.apps[i], first) ==> Tried(tries, i)
    requires forall i :: i in failed <==> Fails(tries, i)
    ensures forall i :: 0 <= i < |plan.apps| && plan.apps[i].loads &&
                        (if plan.apps[i].install then MarkerName("localhost/climate/" + plan.apps[i].name) in first
                         else plan.apps[i].whole.Some? && MarkerName(plan.apps[i].whole.value) in first) ==>
              exists t :: 0 <= t < |tries| && tries[t].i == i
    ensures forall t :: 0 <= t < |tries| ==>
              var (app, refs) := (plan.apps[tries[t].i], tries[t].found.disk.refs);
              app.loads && if app.install then MarkerName("localhost/climate/" + app.name) in refs
                           else app.whole.Some? && MarkerName(app.whole.value) in refs
    ensures forall i :: i in failed <==> exists t :: 0 <= t < |tries| && tries[t].i == i && !tries[t].ok
    ensures forall s, t :: 0 <= s < t < |tries| && SharesRefreshed(plan, tries[s], tries[t]) ==> tries[t].i !in failed
  {
    hide Chained, MarkerName, SharesRefreshed, UpdatesOnce;
    assert forall i :: 0 <= i < |plan.apps| && Considered(plan.apps[i], first) ==> Tried(tries, i);
    forall t | 0 <= t < |tries| ensures Considered(plan.apps[tries[t].i], tries[t].found.disk.refs) {
      ChainedUpTo(plan, tries, first, last, t);
    }
    forall s, t | 0 <= s < t < |tries| && SharesRefreshed(plan, tries[s], tries[t]) ensures tries[t].i !in failed {
      RefreshedNeverFails(plan, tries, first, last, s, t);
    }
  }

  lemma RefreshedNeverFails(plan: Plan, tries: seq<Try>, first: map<Marker, RefText>, last: map<Marker, RefText>,
                            s: nat, t: nat)
    requires InOrder(tries, |plan.apps|) && Chained(plan, tries, first, last)
    requires UpdatesOnce(plan.apps, tries, plan.rebuild)
    requires s < t < |tries| && SharesRefreshed(plan, tries[s], tries[t])
    ensures tries[t].ok
  {
    hide Chained, Outcome, Considered, MarkerName;
    var app := plan.apps[tries[t].i];
    ChainedUpTo(plan, tries, first, last, s);
    OutcomeRefreshes(plan, tries[s]);
    assert Refreshed(plan.apps, tries, t, ImageOf(app), plan.rebuild);
    RefreshedIsRecorded(plan, tries, first, last, t, ImageOf(app));
    ChainedUpTo(plan, tries, first, last, t);
    RecordedWorks(plan, tries[t]);
  }

  // A recorded image that is not to be updated needs no registry.
  lemma RecordedWorks(plan: Plan, t: Try)
    requires t.i < |plan.apps| && !t.update
    requires var app := plan.apps[t.i];
      app.pull && !app.install && app.whole.Some? && MarkerName(app.whole.value) in t.found.disk.refs
    ensures Outcome(plan, t).ok
  {
    hide EnsureApp, MarkerName;
    EnsureInPlainTerms(t.found, plan.apps[t.i], t.update, plan.rebuild, AnswerTo(plan, t), plan.outside.events(t.i),
                       plan.outside.id(t.found, t.i), plan.outside.script(t.i));
  }

  lemma ConsideredLoads(app: App, refs: map<Marker, RefText>)
    requires Considered(app, refs)
    ensures app.loads
  {
  }

  // How far the loop has come before the n-th app.
  ghost predicate Progress(plan: Plan, recorded: map<Marker, RefText>, n: nat, disk: Disk,
                           updated: set<string>, failed: seq<nat>, tries: seq<Try>)
  {
    && n <= |plan.apps| && InOrder(tries, n) && recorded.Keys <= disk.refs.Keys
    && (forall i :: 0 <= i < n && Considered(plan.apps[i], recorded) ==> Tried(tries, i))
    && (forall i :: i in failed <==> Fails(tries, i))
    && (forall image :: image in updated <==> Refreshed(plan.apps, tries, |tries|, image, plan.rebuild))
    && (forall image :: image in updated ==> FullReference(image) && Current(plan, disk, tries, image))
    && UpdatesOnce(plan.apps, tries, plan.rebuild)
    && Chained(plan, tries, recorded, disk.refs)
  }

  lemma NothingTried(plan: Plan, disk: Disk)
    ensures Progress(plan, disk.refs, 0, disk, {}, [], [])
  {
  }

  lemma PassedOver(plan: Plan, recorded: map<Marker, RefText>, n: nat, disk: Disk,
                   updated: set<string>, failed: seq<nat>, tries: seq<Try>)
    requires n < |plan.apps| && !Considered(plan.apps[n], disk.refs)
    requires Progress(plan, recorded, n, disk, updated, failed, tries)
    ensures Progress(plan, recorded, n + 1, disk, updated, failed, tries)
  {
    hide Current, Refreshed, Tried, Fails, Chained;
  }

  lemma SeenTo(plan: Plan, recorded: map<Marker, RefText>, after: Disk,
               updated: set<string>, failed: seq<nat>, tries: seq<Try>, t: Try)
    requires t.i < |plan.apps| && WellNamed(plan.apps[t.i]) && Grown(t.found.disk, after)
    requires Progress(plan, recorded, t.i, t.found.disk, updated, failed, tries)
    requires Considered(plan.apps[t.i], t.found.disk.refs) && t.update == (ImageOf(plan.apps[t.i]) !in updated)
    requires var r := Outcome(plan, t);
      && t.ok == r.ok && after.refs == r.refs
      && (r.ok && r.contact.Some? ==>
            r.contact.value.arrived == AnswerTo(plan, t) && AnswerTo(plan, t).Some?
            && Shows(after, r.contact.value.image, AnswerTo(plan, t).value))
    ensures Progress(plan, recorded, t.i + 1, after,
                     if t.ok && Pulls(plan.apps[t.i], plan.rebuild) then updated + {ImageOf(plan.apps[t.i])} else updated,
                     if t.ok then failed else failed + [t.i],
                     tries + [t])
  {
    hide EnsureApp, Refreshed, Tried, Fails, Grown, Current, Shows, Considered, FullReference, ValidAppName, Chained;
    var app, image := plan.apps[t.i], ImageOf(plan.apps[t.i]);
    TriesGrow(plan.apps, tries, t, plan.rebuild);
    OutcomeRefreshes(plan, t);
    forall other | other in updated ensures Current(plan, after, tries + [t], other) {
      OthersStayCurrent(plan, after, tries, t, other);
    }
    if t.ok && Pulls(app, plan.rebuild) && t.update {
      ShownIsCurrent(plan, after, tries, t);
    }
    ChainGrows(plan, tries, t, recorded, after.refs);
  }

  lemma ChainGrows(plan: Plan, tries: seq<Try>, t: Try, first: map<Marker, RefText>, last: map<Marker, RefText>)
    requires t.i < |plan.apps| && InOrder(tries, t.i) && Chained(plan, tries, first, t.found.disk.refs)
    requires Considered(plan.apps[t.i], t.found.disk.refs)
    requires t.ok == Outcome(plan, t).ok && last == Outcome(plan, t).refs
    ensures InOrder(tries + [t], |plan.apps|) && Chained(plan, tries + [t], first, last)
  {
    hide Outcome, Considered;
    assert (tries + [t])[..|tries|] == tries;
  }

  lemma PassedOnwards(origin: World, before: seq<Step>, after: seq<Step>, from: nat, tries: seq<Try>, t: Try)
    requires before <= after && from <= |before| && t.found == Replay(origin, before)
    requires Passed(origin, before, from, tries)
    ensures Passed(origin, after, from, tries + [t])
  {
    StillPassed(origin, before, after, from, tries);
    assert after[..|before|] == before;
    assert PassedThrough(origin, after, from, t.found);
  }

  lemma StillPassed(origin: World, before: seq<Step>, after: seq<Step>, from: nat, tries: seq<Try>)
    requires before <= after && Passed(origin, before, from, tries)
    ensures Passed(origin, after, from, tries)
  {
    forall t | 0 <= t < |tries| ensures PassedThrough(origin, after, from, tries[t].found) {
      var k: nat :| from <= k <= |before| && tries[t].found == Replay(origin, before[..k]);
      assert after[..k] == before[..k];
    }
  }

  lemma Finished(plan: Plan, recorded: map<Marker, RefText>, disk: Disk,
                 updated: set<string>, failed: seq<nat>, tries: seq<Try>)
    requires Progress(plan, recorded, |plan.apps|, disk, updated, failed, tries)
    ensures InOrder(tries, |plan.apps|) && UpdatesOnce(plan.apps, tries, plan.rebuild)
    ensures Chained(plan, tries, recorded, disk.refs)
    ensures forall i :: 0 <= i < |plan.apps| && Considered(plan.apps[i], recorded) ==> Tried(tries, i)
    ensures forall i :: i in failed <==> Fails(tries, i)
    ensures forall i :: 0 <= i < |plan.apps| && Considered(plan.apps[i], recorded)
                        && Pulls(plan.apps[i], plan.rebuild) && i !in failed ==>
              Current(plan, disk, tries, ImageOf(plan.apps[i]))
  {
    hide Refreshed, Tried, Fails, Current, Considered, Pulls, Chained;
    forall i | 0 <= i < |plan.apps| && Considered(plan.apps[i], recorded)
               && Pulls(plan.apps[i], plan.rebuild) && i !in failed
      ensures Current(plan, disk, tries, ImageOf(plan.apps[i]))
    {
      TriedAndNotFailed(plan.apps, tries, i, plan.rebuild);
    }
  }

  // What a call of `ensure` for a pulled image tells about the registry and the refs.
  lemma EnsureRefreshes(w: World, app: App, update: bool, rebuild: bool, answer: Option<Answer>, events: seq<Event>,
                        id: string, script: Script)
    ensures var (r, refs) := (EnsureApp(w, app, update, rebuild, answer, events, id, script), w.disk.refs);
      && refs.Keys <= r.refs.Keys
      && (r.contact.Some? ==> app.whole.Some? && r.contact.value.image == app.whole.value)
      && (r.ok && Pulls(app, rebuild) ==> app.whole.Some? && MarkerName(ImageOf(app)) in r.refs)
      && (r.ok && Pulls(app, rebuild) && update ==> r.contact == Some(Contact(ImageOf(app), answer)))
      && (Pulls(app, rebuild) && app.whole.Some? && update ==> r.contact.Some?)
      && (!update && MarkerName(ImageOf(app)) in refs ==> r.contact.None?)
      && (!Pulls(app, rebuild) && Considered(app, refs) ==> r.contact.None?)
  {
    hide FetchWorks, BuildWillWork, MarkerName;
  }

  lemma OutcomeRefreshes(plan: Plan, t: Try)
    requires t.i < |plan.apps|
    ensures var (r, app, refs) := (Outcome(plan, t), plan.apps[t.i], t.found.disk.refs);
      && refs.Keys <= r.refs.Keys
      && (r.contact.Some? ==> app.whole.Some? && r.contact.value.image == app.whole.value)
      && (r.ok && Pulls(app, plan.rebuild) ==> app.whole.Some? && MarkerName(ImageOf(app)) in r.refs)
      && (Pulls(app, plan.rebuild) && app.whole.Some? && t.update ==> r.contact.Some?)
      && (!t.update && MarkerName(ImageOf(app)) in refs ==> r.contact.None?)
      && (!Pulls(app, plan.rebuild) && Considered(app, refs) ==> r.contact.None?)
  {
    hide EnsureApp, Considered, Pulls, MarkerName;
    EnsureRefreshes(t.found, plan.apps[t.i], t.update, plan.rebuild, AnswerTo(plan, t), plan.outside.events(t.i),
                    plan.outside.id(t.found, t.i), plan.outside.script(t.i));
  }

  // Seeing to one app leaves alone every image that was refreshed before.
  lemma OthersStayCurrent(plan: Plan, after: Disk, tries: seq<Try>, t: Try, image: string)
    requires t.i < |plan.apps| && InOrder(tries, t.i) && WellNamed(plan.apps[t.i]) && FullReference(image)
    requires Current(plan, t.found.disk, tries, image) && Grown(t.found.disk, after)
    requires after.refs == Outcome(plan, t).refs && (t.update ==> ImageOf(plan.apps[t.i]) != image)
    ensures InOrder(tries + [t], |plan.apps|) && Current(plan, after, tries + [t], image)
  {
    hide Grown, Holds, FullReference, ValidAppName, MarkerName, FetchWorks, BuildWillWork;
    var app := plan.apps[t.i];
    KeysApart(image, app);
    if app.whole.Some? && app.whole.value != image {
      MarkersNeverCollide(app.whole.value, image);
    }
    var s :| 0 <= s < |tries| && Updates(plan, tries[s], image) && AnswerTo(plan, tries[s]).Some? &&
             Shows(t.found.disk, image, AnswerTo(plan, tries[s]).value);
    assert (tries + [t])[s] == tries[s];
    ShownStays(t.found.disk, after, image, AnswerTo(plan, tries[s]).value);
  }

  lemma ShownStays(before: Disk, after: Disk, image: string, answer: Answer)
    requires Shows(before, image, answer) && Grown(before, after)
    requires MarkerName(image) in after.refs && after.refs[MarkerName(image)] == before.refs[MarkerName(image)]
    ensures Shows(after, image, answer)
  {
  }

  lemma ShownIsCurrent(plan: Plan, disk: Disk, tries: seq<Try>, t: Try)
    requires t.i < |plan.apps| && InOrder(tries, t.i)
    requires Updates(plan, t, ImageOf(plan.apps[t.i])) && AnswerTo(plan, t).Some?
    requires Shows(disk, ImageOf(plan.apps[t.i]), AnswerTo(plan, t).value)
    ensures InOrder(tries + [t], |plan.apps|) && Current(plan, disk, tries + [t], ImageOf(plan.apps[t.i]))
  {
    assert (tries + [t])[|tries|] == t;
  }

  lemma CollectingKeepsCurrent(plan: Plan, before: Disk, w: World, tries: seq<Try>, image: string)
    requires InOrder(tries, |plan.apps|) && Inv(w) && w.disk == Collected(before) && Current(plan, before, tries, image)
    ensures Current(plan, w.disk, tries, image)
  {
    var t :| 0 <= t < |tries| && Updates(plan, tries[t], image) && AnswerTo(plan, tries[t]).Some? &&
             Shows(before, image, AnswerTo(plan, tries[t]).value);
    CollectingKeepsShown(before, w, image, AnswerTo(plan, tries[t]).value);
  }

  lemma CollectingKeepsShown(before: Disk, w: World, image: string, answer: Answer)
    requires Inv(w) && w.disk == Collected(before) && Shows(before, image, answer)
    ensures Shows(w.disk, image, answer)
  {
    hide Inv, Held;
    CollectingKeepsManifests(before, MarkerName(image));
    ReadIsHeld(w, MarkerName(image));
  }

  // `pull <app>`: naming the app is asking for it, so its image is fetched and built anew.
  method PullNamed(store: Store, app: App, answer: Option<Answer>, events: seq<Event>, id: string, script: Script)
    returns (ok: bool)
    requires store.Valid() && (app.loads ==> WellNamed(app)) && Admits(store.Now(), answer, id)
    modifies store
    ensures store.Valid() && store.origin == old(store.origin) && old(store.log) <= store.log
    ensures ok <==> app.loads && (app.pull || app.install)
                    && EnsureApp(old(store.Now()), app, true, true, answer, events, id, script).ok
    // That is, when it has to: the image arrives if it may be pulled, and the build works if there is one.
    ensures ok <==> app.loads && (app.pull || app.install) && app.whole.Some?
                    && (app.pull ==> FetchWorks(old(store.disk), answer, events))
                    && (app.install ==>
                          if app.pull then
                            script.succeeds
                            && Reads(old(store.truth).docs + News(answer.value).docs, answer.value.manifest.config)
                          else BuildWorks(old(store.disk), app, script))
    ensures !app.loads || (!app.pull && !app.install) ==> store.disk == old(store.disk)
    ensures app.loads && (app.pull || app.install) ==>
              store.disk.refs == EnsureApp(old(store.Now()), app, true, true, answer, events, id, script).refs
    ensures ok && app.pull ==>
              answer.Some? && app.whole.Some? && Shows(store.disk, app.whole.value, answer.value)
    ensures ok && app.install ==> ShowsBuilt(store.disk, app, id)
    ensures ok ==> store.disk == Collected(store.disk)
  {
    hide Inv, Legal, Replay, Collected, Admits, MarkerName, WellNamed, EnsureApp, Shows, Holds, BuiltOn, FetchWorks,
         BuildWorks, Reads, News;
    if !app.loads || (!app.pull && !app.install) {
      return false;
    }
    EnsureInPlainTerms(store.Now(), app, true, true, answer, events, id, script);
    ok := store.Ensure(app, true, true, answer, events, id, script);
    if ok {
      NamedIsBroughtIn(old(store.Now()), store.disk, app, answer, events, id, script);
      ghost var ensured := store.disk;
      store.GcImages();
      CollectingTwiceIsOnce(ensured);
      store.ValidMeansInv();
      if app.pull {
        CollectingKeepsShown(ensured, store.Now(), app.whole.value, answer.value);
      }
      if app.install {
        CollectingKeepsBuilt(ensured, store.Now(), app, id);
      }
    }
  }

  lemma NamedIsBroughtIn(w: World, after: Disk, app: App, answer: Option<Answer>, events: seq<Event>,
                         id: string, script: Script)
    requires var r := EnsureApp(w, app, true, true, answer, events, id, script);
      && r.ok && after.refs == r.refs
      && (r.contact.Some? ==> answer.Some? && Shows(after, r.contact.value.image, answer.value))
      && (app.install ==> BuiltOn(after, Based(w, app, true, answer, events).refs, app, id, script))
    ensures app.pull ==> answer.Some? && app.whole.Some? && Shows(after, app.whole.value, answer.value)
    ensures app.install ==> ShowsBuilt(after, app, id)
  {
    hide FetchWorks, BuildWillWork, MarkerName, Held;
  }

  predicate ShowsBuilt(disk: Disk, app: App, id: string) {
    var k := MarkerName(LOCAL_PREFIX + app.name);
    && k in disk.refs && disk.refs[k] == Names(BuildDigest(id))
    && var m := ManifestOf(disk, disk.refs[k]);
    m.Some? && BuildDigest(id) in m.value.layers
  }

  lemma CollectingKeepsBuilt(before: Disk, w: World, app: App, id: string)
    requires Inv(w) && w.disk == Collected(before) && ShowsBuilt(before, app, id)
    ensures ShowsBuilt(w.disk, app, id)
  {
    CollectingKeepsManifests(before, MarkerName(LOCAL_PREFIX + app.name));
  }

  // ---- Who is asked ----

  // Along a run no ref is ever lost.
  lemma {:induction false} RefsGrowAlong(plan: Plan, tries: seq<Try>, first: map<Marker, RefText>,
                                         last: map<Marker, RefText>, s: nat)
    requires InOrder(tries, |plan.apps|) && Chained(plan, tries, first, last) && s < |tries|
    ensures Outcome(plan, tries[s]).refs.Keys <= last.Keys
  {
    hide Outcome, Considered;
    var (before, t) := (tries[..|tries| - 1], tries[|tries| - 1]);
    OutcomeRefreshes(plan, t);
    if s < |before| {
      RefsGrowAlong(plan, before, first, t.found.disk.refs, s);
    }
  }

  lemma {:induction false} ChainedUpTo(plan: Plan, tries: seq<Try>, first: map<Marker, RefText>,
                                       last: map<Marker, RefText>, t: nat)
    requires InOrder(tries, |plan.apps|) && Chained(plan, tries, first, last) && t < |tries|
    ensures Chained(plan, tries[..t], first, tries[t].found.disk.refs)
    ensures Considered(plan.apps[tries[t].i], tries[t].found.disk.refs) && tries[t].ok == Outcome(plan, tries[t]).ok
  {
    hide Outcome, Considered;
    var before := tries[..|tries| - 1];
    if t < |before| {
      ChainedUpTo(plan, before, first, tries[|tries| - 1].found.disk.refs, t);
      assert before[..t] == tries[..t];
    }
  }

  // In a run of the update loop a try asks the registry exactly when its image is pulled and no try before it has
  // refreshed that image.
  lemma RegistryAskedExactly(plan: Plan, tries: seq<Try>, first: map<Marker, RefText>, last: map<Marker, RefText>, t: nat)
    requires InOrder(tries, |plan.apps|) && Chained(plan, tries, first, last)
    requires UpdatesOnce(plan.apps, tries, plan.rebuild) && t < |tries|
    ensures var (app, contact) := (plan.apps[tries[t].i], Outcome(plan, tries[t]).contact);
      && (contact.Some? <==> Pulls(app, plan.rebuild) && app.whole.Some?
                             && !Refreshed(plan.apps, tries, t, ImageOf(app), plan.rebuild))
      && (contact.Some? ==> contact.value.image == ImageOf(app))
  {
    hide Outcome, Chained, Considered, Pulls, MarkerName, ImageOf, Refreshed;
    ChainedUpTo(plan, tries, first, last, t);
    OutcomeRefreshes(plan, tries[t]);
    var app := plan.apps[tries[t].i];
    if Refreshed(plan.apps, tries, t, ImageOf(app), plan.rebuild) {
      RefreshedIsRecorded(plan, tries, first, last, t, ImageOf(app));
    }
    WholeIsImage(app);
  }

  lemma WholeIsImage(app: App)
    ensures app.whole.Some? ==> ImageOf(app) == app.whole.value
  {
  }

  // What a try refreshed is still recorded when a later one comes.
  lemma RefreshedIsRecorded(plan: Plan, tries: seq<Try>, first: map<Marker, RefText>, last: map<Marker, RefText>, t: nat,
                            image: string)
    requires InOrder(tries, |plan.apps|) && Chained(plan, tries, first, last) && t < |tries|
    requires Refreshed(plan.apps, tries, t, image, plan.rebuild)
    ensures MarkerName(image) in tries[t].found.disk.refs
  {
    hide Outcome, Chained, Considered, Pulls, MarkerName, ImageOf;
    var s :| 0 <= s < t && tries[s].ok && Pulls(plan.apps[tries[s].i], plan.rebuild)
             && ImageOf(plan.apps[tries[s].i]) == image;
    ChainedUpTo(plan, tries, first, last, s);
    ChainedUpTo(plan, tries, first, last, t);
    OutcomeRefreshes(plan, tries[s]);
    assert tries[..t][s] == tries[s];
    RefsGrowAlong(plan, tries[..t], first, tries[t].found.disk.refs, s);
  }

  // Apps sharing an image contact the registry only for the first of them, once that has worked.
  lemma OneForcedFetch(plan: Plan, tries: seq<Try>, first: map<Marker, RefText>, last: map<Marker, RefText>, s: nat, t: nat)
    requires InOrder(tries, |plan.apps|) && Chained(plan, tries, first, last)
    requires UpdatesOnce(plan.apps, tries, plan.rebuild)
    requires s < t < |tries| && ImageOf(plan.apps[tries[s].i]) == ImageOf(plan.apps[tries[t].i])
    requires tries[s].ok && Pulls(plan.apps[tries[s].i], plan.rebuild)
    ensures !tries[t].update && Outcome(plan, tries[t]).contact.None?
  {
    assert Refreshed(plan.apps, tries, t, ImageOf(plan.apps[tries[t].i]), plan.rebuild);
    RegistryAskedExactly(plan, tries, first, last, t);
  }

  // While no try for an image has worked, the next app that pulls it asks the registry again.
  lemma FailuresAreRetried(plan: Plan, tries: seq<Try>, first: map<Marker, RefText>, last: map<Marker, RefText>, t: nat)
    requires InOrder(tries, |plan.apps|) && Chained(plan, tries, first, last)
    requires UpdatesOnce(plan.apps, tries, plan.rebuild) && t < |tries|
    requires forall s :: 0 <= s < t && ImageOf(plan.apps[tries[s].i]) == ImageOf(plan.apps[tries[t].i]) ==> !tries[s].ok
    ensures var app := plan.apps[tries[t].i];
      tries[t].update &&
      (Pulls(app, plan.rebuild) && app.whole.Some? ==>
         Outcome(plan, tries[t]).contact.Some? && Outcome(plan, tries[t]).contact.value.image == ImageOf(app))
  {
    RegistryAskedExactly(plan, tries, first, last, t);
  }

  lemma TriesGrow(apps: seq<App>, tries: seq<Try>, last: Try, rebuild: bool)
    requires InOrder(tries, |apps|) && last.i < |apps|
    requires forall t :: 0 <= t < |tries| ==> tries[t].i < last.i
    ensures var after := tries + [last];
      && InOrder(after, last.i + 1)
      && (forall n, image :: 0 <= n <= |tries| ==>
            (Refreshed(apps, after, n, image, rebuild) <==> Refreshed(apps, tries, n, image, rebuild)))
      && (forall image ::
            Refreshed(apps, after, |after|, image, rebuild) <==>
            Refreshed(apps, tries, |tries|, image, rebuild) ||
            (last.ok && Pulls(apps[last.i], rebuild) && ImageOf(apps[last.i]) == image))
      && (forall i :: Tried(after, i) <==> Tried(tries, i) || i == last.i)
      && (forall i :: Fails(after, i) <==> Fails(tries, i) || (i == last.i && !last.ok))
  {
    var after := tries + [last];
    assert after[|tries|] == last;
    assert forall t :: 0 <= t < |tries| ==> after[t] == tries[t];
  }

  lemma TriedAndNotFailed(apps: seq<App>, tries: seq<Try>, i: nat, rebuild: bool)
    requires InOrder(tries, |apps|) && i < |apps| && Tried(tries, i) && !Fails(tries, i) && Pulls(apps[i], rebuild)
    ensures Refreshed(apps, tries, |tries|, ImageOf(apps[i]), rebuild)
  {
  }
}
