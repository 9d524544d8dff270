/** Everything that ever happens to a store: command after command, each free to crash between any two of its steps. */
module Sessions {
  import opened Wrappers
  import opened StoreNames
  import opened StoreModel
  import opened StoreClean
  import opened LayerFetch
  import opened ImageSpec
  import opened ImageStore
  import opened UpdateLoop

  // Ensure is what running an app begins with.
  datatype Command =
    | Ensure(app: App, update: bool, rebuild: bool, answer: Option<Answer>, events: seq<Event>,
             id: string, script: Script)
    | Pull(app: App, answer: Option<Answer>, events: seq<Event>, id: string, script: Script)
    | Update(plan: Plan)
    | Clean(apps: seq<App>)

  // What the outside world owes a command: registries that keep to content addressing, fresh build names, and names and
  // references that were checked when the app was loaded.
  ghost predicate Admissible(w: World, c: Command) {
    match c
    case Ensure(_, _, _, answer, _, id, _) => Admits(w, answer, id)
    case Pull(app, answer, _, id, _) => (app.loads ==> WellNamed(app)) && Admits(w, answer, id)
    case Update(plan) =>
      Fair(plan.outside) && forall i :: 0 <= i < |plan.apps| && plan.apps[i].loads ==> WellNamed(plan.apps[i])
    case Clean(_) => true
  }

  // A command as it comes depends on what the store has been through.
  ghost predicate AllAdmissible(commands: nat -> World -> Command) {
    forall n: nat, w: World :: Admissible(w, commands(n)(w))
  }

  // Any apps and registry answers at all make up such a history: here every command is an update, a pull of one app or
  // a clean, by turns, and answers come whenever they can.
  lemma HistoriesExist(apps: seq<App>, answers: nat -> Option<Answer>, events: nat -> seq<Event>, script: nat -> Script)
    returns (commands: nat -> World -> Command)
    requires forall i :: 0 <= i < |apps| && apps[i].loads ==> WellNamed(apps[i])
    ensures AllAdmissible(commands)
    ensures forall n: nat, w: World ::
              if n % 3 == 0 then commands(n)(w).Update? && commands(n)(w).plan.apps == apps
              else if n % 3 == 1 && apps != [] then commands(n)(w).Pull? && commands(n)(w).app in apps
                                                    && commands(n)(w).answer == Honest(w, answers(n))
              else commands(n)(w) == Clean(apps)
  {
    var outside := FairExists(answers, events, script);
    assert forall w: World, n: nat :: Admits(w, outside.answer(w, n), outside.id(w, n));
    commands := (n: nat) => (w: World) =>
      if n % 3 == 0 then Update(Plan(apps, n % 2 == 0, outside))
      else if n % 3 == 1 && apps != [] then
        Pull(apps[n % |apps|], outside.answer(w, n), outside.events(n), outside.id(w, n), outside.script(n))
      else Clean(apps);
  }

  // What a command that is not cut off makes of the store.
  ghost predicate Completes(w: World, c: Command, v: World) {
    match c
    case Ensure(app, update, rebuild, answer, events, id, script) =>
      v.disk.refs == EnsureApp(w, app, update, rebuild, answer, events, id, script).refs
    case Pull(app, answer, events, id, script) =>
      v.disk.refs == if app.loads && (app.pull || app.install)
                     then EnsureApp(w, app, true, true, answer, events, id, script).refs else w.disk.refs
    case Update(plan) => v.disk == Collected(v.disk) && Updated(w, plan, v)
    case Clean(apps) => v.disk == Cleaned(w.disk, apps)
  }

  ghost predicate Updated(w: World, plan: Plan, v: World) {
    exists tries: seq<Try> ::
      InOrder(tries, |plan.apps|) && UpdatesOnce(plan.apps, tries, plan.rebuild)
      && Chained(plan, tries, w.disk.refs, v.disk.refs)
  }

  // The command takes some steps that would complete it, and is cut off after so many of them if there are more.
  ghost predicate Ran(w: World, c: Command, crash: nat, v: World) {
    exists steps: seq<Step> :: RanAs(w, c, crash, v, steps)
  }

  ghost predicate RanAs(w: World, c: Command, crash: nat, v: World, steps: seq<Step>) {
    && Legal(w, steps) && Completes(w, c, Replay(w, steps))
    && v == Replay(w, if crash < |steps| then steps[..crash] else steps)
  }

  // The n-th command is cut off after crashes[n] of its steps, if it takes more than that. Whatever the commands and
  // wherever they are cut, the store is closed after each of them.
  method RunAll(store: Store, commands: nat -> World -> Command, crashes: seq<nat>) returns (ghost worlds: seq<World>)
    requires store.Valid() && AllAdmissible(commands)
    modifies store
    ensures store.Valid() && store.origin == old(store.origin)
    ensures |worlds| == |crashes| + 1 && worlds[0] == old(store.Now()) && worlds[|crashes|] == store.Now()
    ensures forall n :: 0 <= n < |crashes| ==> Ran(worlds[n], commands(n)(worlds[n]), crashes[n], worlds[n + 1])
    ensures forall n :: 0 <= n <= |crashes| ==> Closed(worlds[n])
  {
    hide Replay, Legal, Admissible, Ran, Closed, Completes;
    worlds := [store.Now()];
    StoreIsClosed(store);
    for n := 0 to |crashes|
      invariant store.Valid() && store.origin == old(store.origin)
      invariant |worlds| == n + 1 && worlds[0] == old(store.Now()) && worlds[n] == store.Now()
      invariant forall k :: 0 <= k < n ==> Ran(worlds[k], commands(k)(worlds[k]), crashes[k], worlds[k + 1])
      invariant forall k :: 0 <= k <= n ==> Closed(worlds[k])
    {
      ghost var (w, log) := (store.Now(), store.log);
      var start := |store.log|;
      assert Admissible(w, commands(n)(w));
      RunOne(store, commands(n)(store.Now()));
      ghost var (full, steps) := (store.log, store.log[start..]);
      assert full == log + steps;
      assert crashes[n] < |steps| ==> full[..start + crashes[n]] == log + steps[..crashes[n]];
      if start + crashes[n] < |store.log| {
        store.Crash(start + crashes[n]);
      }
      HowItRan(store.origin, log, steps, w, store.Now(), commands(n)(w), crashes[n]);
      StoreIsClosed(store);
      worlds := worlds + [store.Now()];
    }
  }

  lemma StoreIsClosed(store: Store)
    requires store.Valid()
    ensures Closed(store.Now())
  {
    CrashSafeClosure(store.origin, store.log, |store.log|);
    assert store.log[..|store.log|] == store.log;
  }

  lemma HowItRan(origin: World, log: seq<Step>, steps: seq<Step>, w: World, v: World, c: Command, crash: nat)
    requires Legal(origin, log + steps) && w == Replay(origin, log) && Completes(w, c, Replay(origin, log + steps))
    requires v == Replay(origin, if crash < |steps| then log + steps[..crash] else log + steps)
    ensures Ran(w, c, crash, v)
  {
    hide Legal, Replay, Completes;
    RunsOn(origin, log, steps);
    if crash < |steps| {
      CutShort(origin, log, steps, crash);
    }
    assert RanAs(w, c, crash, v, steps);
  }

  lemma CutShort(origin: World, log: seq<Step>, steps: seq<Step>, crash: nat)
    requires Legal(origin, log + steps) && crash < |steps|
    ensures Replay(origin, log + steps[..crash]) == Replay(Replay(origin, log), steps[..crash])
  {
    hide Legal, Replay;
    assert (log + steps)[..|log| + crash] == log + steps[..crash];
    LegalPrefix(origin, log + steps, |log| + crash);
    RunsOn(origin, log, steps[..crash]);
  }

  method RunOne(store: Store, c: Command)
    requires store.Valid() && Admissible(store.Now(), c)
    modifies store
    ensures store.Valid() && store.origin == old(store.origin) && old(store.log) <= store.log
    ensures Completes(old(store.Now()), c, store.Now())
  {
    hide Replay, Legal, EnsureApp, Cleaned, Collected, Chained, UpdatesOnce;
    match c {
      case Ensure(app, update, rebuild, answer, events, id, script) =>
        var ok := store.Ensure(app, update, rebuild, answer, events, id, script);
      case Pull(app, answer, events, id, script) =>
        var ok := PullNamed(store, app, answer, events, id, script);
      case Update(plan) =>
        var failed, tries := PullUpdate(store, plan);
        assert Updated(old(store.Now()), plan, store.Now());
      case Clean(apps) =>
        store.Clean(apps);
    }
  }
}
