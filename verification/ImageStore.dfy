/** The commands that change the store, as the file-system steps they take. Every step goes through Do, which checks it
    against the discipline of StoreModel and writes it down, so the log of any call is legal up to any point a crash
    could cut it off at. */
module ImageStore {
  import opened Wrappers
  import opened StoreNames
  import opened StoreModel
  import opened StoreClean
  import opened LayerFetch
  import opened ImageSpec

  // Every fetch in flight has a temporary file of its own, and beside those there is only what was there before.
  ghost predicate TempsTaken(kept: map<nat, Blob>, downloads: map<nat, Blob>, phases: seq<Phase>, temps: seq<nat>, clock: nat) {
    && |temps| == |phases|
    && (forall i :: 0 <= i < |phases| && Flying(phases[i]) ==> temps[i] < clock && temps[i] !in kept)
    && (forall i, j :: 0 <= i < j < |phases| && Flying(phases[i]) && Flying(phases[j]) ==> temps[i] != temps[j])
    && (forall t :: t in downloads <==>
          t in kept || exists i :: 0 <= i < |phases| && Flying(phases[i]) && temps[i] == t)
    && (forall t :: t in kept ==> t in downloads && downloads[t] == kept[t])
  }

  predicate SizesTrue(pending: seq<Digest>, sizes: map<Digest, nat>, truth: Truth)
    requires Sized(pending, sizes)
  {
    forall i :: 0 <= i < |pending| ==> pending[i] in truth.sizes && truth.sizes[pending[i]] == sizes[pending[i]]
  }

  class Store {
    var disk: Disk
    var clock: nat
    // Bookkeeping that no command looks at: what digests stand for, and every step since the store was first seen.
    var truth: Truth
    var origin: World
    var log: seq<Step>

    function Now(): World
      reads this
    {
      World(disk, truth)
    }

    ghost predicate Valid()
      reads this
    {
      && Inv(origin) && Legal(origin, log) && Replay(origin, log) == Now()
      && forall t :: t in disk.downloads ==> t < clock
    }

    constructor ()
      ensures Valid() && Now() == EMPTY_WORLD && origin == EMPTY_WORLD && log == []
    {
      disk := EMPTY_DISK;
      clock := 0;
      truth := EMPTY_WORLD.truth;
      origin := EMPTY_WORLD;
      log := [];
    }

    lemma ValidMeansInv()
      requires Valid()
      ensures Inv(Now())
    {
      LegalRunKeepsInv(origin, log);
    }

    // ---- Single steps ----

    method Do(step: Step)
      requires Valid() && !step.Learn? && Allowed(Now(), step)
      requires step.PutDownload? ==> step.temp < clock
      modifies this`disk, this`log
      ensures Valid() && log == old(log) + [step] && disk == ApplyDisk(old(disk), step)
    {
      hide Replay, Legal, Inv;
      Append(origin, log, step);
      log := log + [step];
      disk := ApplyDisk(disk, step);
    }

    method Learned(news: Truth)
      requires Valid() && Agrees(truth, news)
      modifies this`truth, this`log
      ensures Valid() && log == old(log) + [Learn(news)]
      ensures truth == Truth(old(truth).docs + news.docs, old(truth).sizes + news.sizes)
    {
      hide Replay, Legal, Inv;
      Append(origin, log, Learn(news));
      log := log + [Learn(news)];
      truth := Truth(truth.docs + news.docs, truth.sizes + news.sizes);
    }

    // A name no other download in the store has.
    method TempPath() returns (temp: nat)
      requires Valid()
      modifies this`clock
      ensures Valid() && temp !in disk.downloads && temp == old(clock) && clock == temp + 1
    {
      temp := clock;
      clock := clock + 1;
    }

    // Opening the file for writing empties it, so a crash before the end leaves a blob that parses as nothing.
    method StoreBlob(digest: Digest, blob: Blob) returns (ok: bool)
      requires Valid() && TrueDoc(truth, digest) && truth.docs[digest] == blob
      modifies this`disk, this`log
      ensures Valid() && (ok <==> ValidDigest(digest))
      ensures log == old(log) + if ok then [TearBlob(digest), WriteBlob(digest, blob)] else []
      ensures disk == if ok then old(disk).(blobs := old(disk).blobs[digest := blob]) else old(disk)
      ensures Grown(old(disk), disk)
    {
      hide Replay, Legal, Inv, Grown;
      GrownByNothing(disk);
      if !ValidDigest(digest) {
        return false;
      }
      ValidMeansInv();
      GrownByTrueBlob(Now(), digest, blob);
      Do(TearBlob(digest));
      Do(WriteBlob(digest, blob));
      assert old(disk).blobs[digest := Damaged][digest := blob] == old(disk).blobs[digest := blob];
      ok := true;
    }

    // A ref is emptied and filled in place as well. It may only come to name an image the store holds all of.
    method RecordRef(marker: Marker, digest: Digest)
      requires Valid() && TrueDoc(truth, digest) && digest in disk.blobs && Held(disk, truth.docs[digest].manifest)
      modifies this`disk, this`log
      ensures Valid()
      ensures log == old(log) + [TearRef(marker, Blank), TearRef(marker, Partial), WriteRef(marker, digest)]
      ensures disk == old(disk).(refs := old(disk).refs[marker := Names(digest)])
    {
      hide Replay, Legal, Inv;
      Do(TearRef(marker, Blank));
      Do(TearRef(marker, Partial));
      Do(WriteRef(marker, digest));
      assert disk.refs == old(disk).refs[marker := Names(digest)];
    }

    // ---- Pulling ----

    // One event of one layer's fetch.
    method HandleEvent(e: Event, pending: seq<Digest>, sizes: map<Digest, nat>, phases: seq<Phase>, temps: seq<nat>,
                       ghost kept: map<nat, Blob>)
      returns (phases': seq<Phase>, temps': seq<nat>)
      requires Valid() && |phases| == |pending| && Sized(pending, sizes) && TempsTaken(kept, disk.downloads, phases, temps, clock)
      requires SizesTrue(pending, sizes, truth)
      requires FetchInv(Fetches(phases, disk.stages, disk.layers), pending, sizes)
      modifies this`disk, this`log, this`clock
      ensures Valid() && old(log) <= log && |phases'| == |pending| && TempsTaken(kept, disk.downloads, phases', temps', clock)
      ensures Fetches(phases', disk.stages, disk.layers)
              == Advance(Fetches(phases, old(disk).stages, old(disk).layers), pending, sizes, e)
      ensures disk.refs == old(disk).refs && disk.blobs == old(disk).blobs
    {
      hide Replay, Legal, Inv, FetchInv, TempsTaken;
      phases', temps' := phases, temps;
      if Enabled(Fetches(phases, disk.stages, disk.layers), pending, sizes, e) {
        if e.Start? || e.Arrives? {
          phases', temps' := HandleDownload(e, pending, sizes, phases, temps, kept);
        } else if e.Renames? || e.Breaks? {
          phases' := HandleEnd(e, pending, sizes, phases, temps, kept);
        } else {
          phases' := HandleUnpack(e, pending, sizes, phases, temps, kept);
        }
      }
    }

    method HandleDownload(e: Event, pending: seq<Digest>, sizes: map<Digest, nat>, phases: seq<Phase>, temps: seq<nat>,
                          ghost kept: map<nat, Blob>)
      returns (phases': seq<Phase>, temps': seq<nat>)
      requires Valid() && |phases| == |pending| && Sized(pending, sizes) && TempsTaken(kept, disk.downloads, phases, temps, clock)
      requires (e.Start? || e.Arrives?) && Enabled(Fetches(phases, disk.stages, disk.layers), pending, sizes, e)
      modifies this`disk, this`log, this`clock
      ensures Valid() && old(log) <= log && |phases'| == |pending| && TempsTaken(kept, disk.downloads, phases', temps', clock)
      ensures phases' == phases[e.i := if e.Start? then Downloading else Downloaded]
      ensures disk == old(disk).(downloads := disk.downloads)
    {
      hide Replay, Legal, Inv, TempsTaken;
      TempsTell(kept, disk.downloads, phases, temps, clock);
      temps' := temps;
      if e.Start? {
        var temp := TempPath();
        TempStarts(kept, disk.downloads, phases, temps, temp, e.i);
        Do(PutDownload(temp, Damaged));
        temps' := temps[e.i := temp];
        phases' := phases[e.i := Downloading];
      } else {
        TempStays(kept, disk.downloads, phases, temps, clock, e.i, Downloaded);
        TempFills(kept, disk.downloads, phases[e.i := Downloaded], temps, clock, e.i, Data(sizes[pending[e.i]]));
        Do(PutDownload(temps[e.i], Data(sizes[pending[e.i]])));
        phases' := phases[e.i := Downloaded];
      }
    }

    method HandleUnpack(e: Event, pending: seq<Digest>, sizes: map<Digest, nat>, phases: seq<Phase>, ghost temps: seq<nat>,
                        ghost kept: map<nat, Blob>)
      returns (phases': seq<Phase>)
      requires Valid() && |phases| == |pending| && Sized(pending, sizes) && TempsTaken(kept, disk.downloads, phases, temps, clock)
      requires (e.Clears? || e.Opens? || e.Unpacks?)
      requires Enabled(Fetches(phases, disk.stages, disk.layers), pending, sizes, e)
      modifies this`disk, this`log
      ensures Valid() && old(log) <= log && |phases'| == |pending| && TempsTaken(kept, disk.downloads, phases', temps, clock)
      ensures Fetches(phases', disk.stages, disk.layers)
              == Advance(Fetches(phases, old(disk).stages, old(disk).layers), pending, sizes, e)
      ensures disk == old(disk).(stages := disk.stages)
    {
      hide Replay, Legal, Inv, TempsTaken;
      var up := Upper(pending[e.i]);
      match e {
        case Clears(i) =>
          TempStays(kept, disk.downloads, phases, temps, clock, i, Cleared);
          Do(ClearStage(up));
          phases' := phases[i := Cleared];
        case Opens(i) =>
          TempStays(kept, disk.downloads, phases, temps, clock, i, Unpacking(0));
          Do(OpenStage(up));
          phases' := phases[i := Unpacking(0)];
        case Unpacks(i) =>
          TempStays(kept, disk.downloads, phases, temps, clock, i, Unpacking(phases[i].next + 1));
          Do(Unpack(up, phases[i].next));
          phases' := phases[i := Unpacking(phases[i].next + 1)];
      }
    }

    // The temporary file goes whether the fetch worked or not.
    method HandleEnd(e: Event, pending: seq<Digest>, sizes: map<Digest, nat>, phases: seq<Phase>, temps: seq<nat>,
                     ghost kept: map<nat, Blob>)
      returns (phases': seq<Phase>)
      requires Valid() && |phases| == |pending| && Sized(pending, sizes) && TempsTaken(kept, disk.downloads, phases, temps, clock)
      requires (e.Renames? || e.Breaks?) && Enabled(Fetches(phases, disk.stages, disk.layers), pending, sizes, e)
      requires SizesTrue(pending, sizes, truth)
      requires FetchInv(Fetches(phases, disk.stages, disk.layers), pending, sizes)
      modifies this`disk, this`log
      ensures Valid() && old(log) <= log && |phases'| == |pending| && TempsTaken(kept, disk.downloads, phases', temps, clock)
      ensures Fetches(phases', disk.stages, disk.layers)
              == Advance(Fetches(phases, old(disk).stages, old(disk).layers), pending, sizes, e)
      ensures disk.refs == old(disk).refs && disk.blobs == old(disk).blobs
    {
      hide Replay, Legal, Inv, TempsTaken;
      TempsTell(kept, disk.downloads, phases, temps, clock);
      TempEnds(kept, disk.downloads, phases, temps, clock, e.i, Failed);
      TempEnds(kept, disk.downloads, phases, temps, clock, e.i, Done);
      phases' := phases[e.i := Failed];
      if e.Renames? && CanRename(disk.stages, disk.layers, pending[e.i]) {
        Do(CommitLayer(pending[e.i]));
        phases' := phases[e.i := Done];
      }
      Do(DropDownload(temps[e.i]));
    }

    // The layers a pull lacks, fetched side by side in the order the events come.
    method FetchLayers(pending: seq<Digest>, sizes: map<Digest, nat>, events: seq<Event>)
      returns (ok: bool, ghost temps': seq<nat>)
      requires Valid() && Sized(pending, sizes) && NoneRepeated(pending, sizes)
      requires SizesTrue(pending, sizes, truth)
      modifies this`disk, this`log, this`clock
      ensures Valid() && old(log) <= log
      ensures var g := Run(Fresh(pending, old(disk)), pending, sizes, events);
              && disk.stages == g.stages && disk.layers == g.layers
              && (ok <==> forall i :: 0 <= i < |pending| ==> g.phases[i].Done?)
              // Fetches that are done or have failed, or were never begun, leave no temporary file; the others one each.
              && |temps'| == |pending|
              && (forall t :: t in disk.downloads <==>
                    t in old(disk).downloads
                    || exists i :: 0 <= i < |pending| && !g.phases[i].Queued? && !g.phases[i].Done?
                                   && !g.phases[i].Failed? && temps'[i] == t)
              && (forall t :: t in old(disk).downloads ==> disk.downloads[t] == old(disk).downloads[t])
      ensures disk.refs == old(disk).refs && disk.blobs == old(disk).blobs
      ensures ok ==> disk.downloads == old(disk).downloads
    {
      hide Replay, Legal, Inv, FetchInv, Run, Advance, TempsTaken;
      var phases := seq(|pending|, i => Queued);
      var temps: seq<nat> := seq(|pending|, i => 0);
      ghost var start := Fresh(pending, disk);
      ValidMeansInv();
      FreshIsSafe(Now(), pending, sizes);
      RunNothing(start, pending, sizes);
      NoTemps(disk.downloads, phases, temps, clock);
      for n := 0 to |events|
        invariant Valid() && old(log) <= log && |phases| == |pending|
        invariant TempsTaken(old(disk).downloads, disk.downloads, phases, temps, clock)
        invariant Fetches(phases, disk.stages, disk.layers) == Run(start, pending, sizes, events[..n])
        invariant disk.refs == old(disk).refs && disk.blobs == old(disk).blobs
      {
        InterleavingsAreSafe(start, pending, sizes, events[..n]);
        RunNext(start, pending, sizes, events[..n], events[n]);
        assert events[..n + 1] == events[..n] + [events[n]];
        phases, temps := HandleEvent(events[n], pending, sizes, phases, temps, old(disk).downloads);
      }
      assert events[..|events|] == events;
      ok := forall i :: 0 <= i < |pending| ==> phases[i].Done?;
      temps' := temps;
      TempsTell(old(disk).downloads, disk.downloads, phases, temps, clock);
      if ok {
        assert disk.downloads.Keys == old(disk).downloads.Keys;
      }
    }

    // The order of the writes is what keeps the store closed: the ref comes last, after everything it stands for.
    method FetchImage(marker: Marker, answer: Option<Answer>, events: seq<Event>) returns (ok: bool)
      requires Valid() && (answer.Some? ==> Consistent(truth, answer.value) && Fetchable(disk, answer.value))
      modifies this
      ensures Valid() && origin == old(origin) && old(log) <= log
      ensures Grown(old(disk), disk)
      ensures ok <==> FetchWorks(old(disk), answer, events)
      // It works exactly when the registry knows the image, every digest is one, the config is had and every layer that
      // was lacking came through.
      ensures ok <==>
                && answer.Some? && ValidDigest(answer.value.digest) && ValidDigest(answer.value.manifest.config)
                && (forall l :: l in answer.value.manifest.layers ==> ValidDigest(l))
                && (answer.value.config.Some? || answer.value.manifest.config in old(disk).blobs
                    || answer.value.manifest.config == answer.value.digest)
                && var pending := Lacking(answer.value.manifest.layers, old(disk));
                && Sized(pending, answer.value.archives)
                && var g := Run(Fresh(pending, old(disk)), pending, answer.value.archives, events);
                   forall i :: 0 <= i < |pending| ==> g.phases[i].Done?
      ensures disk.refs == if ok then old(disk).refs[marker := Names(answer.value.digest)] else old(disk).refs
      ensures ok ==> Holds(disk, answer.value) && truth.docs == old(truth).docs + News(answer.value).docs
      ensures ok ==> disk.downloads == old(disk).downloads
      ensures if answer.Some? then SameApartFrom(old(Now()), Now(), answer.value) else disk == old(disk) && truth == old(truth)
    {
      hide Replay, Legal, Inv, SameApartFrom, Grown, FetchWorks, Held, ManifestOf, Consistent, Fetchable, News, ValidDigest,
           Lacking, Run;
      GrownByNothing(disk);
      if answer.None? {
        NothingToFetch(disk, events);
        return false;
      }
      FetchInPlainTerms(disk, answer.value, events);
      ok := FetchAll(answer.value, events);
      if ok {
        ghost var fetched := Now();
        RecordRef(marker, answer.value.digest);
        RefsStayApart(old(Now()), fetched, Now(), answer.value);
        GrownBySameBlobs(fetched.disk, disk);
        GrownFurther(old(disk), fetched.disk, disk);
        HeldOnwards(fetched.disk, disk, answer.value);
      }
    }

    // Everything an image consists of.
    method FetchAll(answer: Answer, events: seq<Event>) returns (ok: bool)
      requires Valid() && Consistent(truth, answer) && Fetchable(disk, answer)
      modifies this
      ensures Valid() && origin == old(origin) && old(log) <= log
      ensures Grown(old(disk), disk) && disk.refs == old(disk).refs
      ensures ok <==> FetchWorks(old(disk), Some(answer), events)
      ensures truth.docs == old(truth).docs + News(answer).docs
      ensures ok ==> Holds(disk, answer) && TrueDoc(truth, answer.digest) && answer.digest in disk.blobs
                     && truth.docs[answer.digest] == Doc(answer.manifest)
      ensures ok ==> disk.downloads == old(disk).downloads
      ensures SameApartFrom(old(Now()), Now(), answer)
    {
      hide Replay, Legal, Inv, SameApartFrom, SameAt, Grown, AllFetched, Lacking, ValidDigest, NoneRepeated, Mentions,
           News, Agrees, ManifestOf, Held;
      ghost var found := disk;
      NewsTells(truth, answer);
      ok := FetchHead(answer);
      FetchedAlike(answer, events, found, disk);
      if ok {
        ghost var headed := Now();
        NewsSizes(old(truth), truth, answer);
        ok := FetchContents(answer.manifest.layers, answer.archives, events);
        HeadAndContents(headed.disk, disk, answer);
        ApartFollows(old(Now()), headed, Now(), answer);
        GrownFurther(old(disk), headed.disk, disk);
      }
    }

    // The manifest as the registry sent it, and the config it names.
    method FetchHead(answer: Answer) returns (ok: bool)
      requires Valid() && Consistent(truth, answer)
      modifies this
      ensures Valid() && origin == old(origin) && old(log) <= log
      ensures truth.docs == old(truth).docs + News(answer).docs && truth.sizes == old(truth).sizes + News(answer).sizes
      ensures disk.refs == old(disk).refs && disk.layers == old(disk).layers && disk.stages == old(disk).stages
      ensures old(disk).blobs.Keys <= disk.blobs.Keys
              <= old(disk).blobs.Keys + {answer.digest, answer.manifest.config}
      ensures Grown(old(disk), disk)
      ensures ok <==> ValidDigest(answer.digest) && ValidDigest(answer.manifest.config)
                      && (answer.config.Some? || answer.manifest.config in old(disk).blobs
                          || answer.manifest.config == answer.digest)
      ensures ok ==> ManifestOf(disk, Names(answer.digest)) == Some(answer.manifest)
                     && answer.manifest.config in disk.blobs && disk.downloads == old(disk).downloads
      ensures SameApartFrom(old(Now()), Now(), answer)
    {
      hide Replay, Legal, Inv, SameApartFrom, News, Grown, ValidDigest;
      NewsTells(truth, answer);
      Learned(News(answer));
      ok := StoreBlob(answer.digest, Doc(answer.manifest));
      ghost var stored := disk;
      GrownByNothing(disk);
      if ok {
        ok := FetchConfig(answer.manifest.config, answer.config);
      }
      HeadStaysApart(old(Now()), Now(), answer);
      GrownFurther(old(disk), stored, disk);
    }

    // Every layer of an image, those already there left alone.
    method FetchContents(layers: seq<Digest>, sizes: map<Digest, nat>, events: seq<Event>) returns (ok: bool)
      requires Valid() && Sized(layers, sizes)
      requires Sized(Lacking(layers, disk), sizes) && NoneRepeated(Lacking(layers, disk), sizes)
      requires SizesTrue(layers, sizes, truth)
      modifies this`disk, this`log, this`clock
      ensures Valid() && old(log) <= log
      ensures disk.refs == old(disk).refs && disk.blobs == old(disk).blobs && Grown(old(disk), disk)
      ensures ok <==> (forall l :: l in layers ==> ValidDigest(l))
                      && AllFetched(Lacking(layers, old(disk)), sizes, old(disk), events)
      ensures ok ==> (forall l :: l in layers ==> l in disk.layers) && disk.downloads == old(disk).downloads
      ensures forall d :: d !in layers ==> SameAt(old(Now()), Now(), d)
    {
      hide Replay, Legal, Inv, Run, ValidDigest, Lacking, Grown, FetchInv;
      GrownByNothing(disk);
      var pending;
      ok, pending := Missing(layers);
      if !ok {
        return;
      }
      ValidMeansInv();
      assert forall i :: 0 <= i < |pending| ==> pending[i] in layers;
      ghost var temps;
      ok, temps := FetchLayers(pending, sizes, events);
      ContentsFetched(old(Now()), Now(), layers, sizes, events);
    }

    // A failed download leaves its temporary file for the next collection to find.
    method FetchConfig(digest: Digest, config: Option<Blob>) returns (ok: bool)
      requires Valid() && (config.Some? ==> digest in truth.docs && truth.docs[digest] == config.value)
      modifies this`disk, this`log, this`clock
      ensures Valid() && old(log) <= log
      ensures disk.refs == old(disk).refs && disk.layers == old(disk).layers && disk.stages == old(disk).stages
      ensures ok <==> ValidDigest(digest) && (config.Some? || digest in old(disk).blobs)
      ensures ok ==> digest in disk.blobs && disk.downloads == old(disk).downloads
      ensures disk.blobs == old(disk).blobs ||
              (config.Some? && digest !in old(disk).blobs && disk.blobs == old(disk).blobs[digest := config.value])
      ensures Grown(old(disk), disk)
    {
      hide Replay, Legal, Inv, ValidDigest, Held, ManifestOf, BlobLive, LayerLive, Readable;
      if !ValidDigest(digest) {
        return false;
      }
      if digest !in disk.blobs {
        var temp := TempPath();
        Do(PutDownload(temp, Damaged));
        if config.None? {
          return false;
        }
        Do(PutDownload(temp, config.value));
        Do(CommitBlob(temp, digest));
      }
      ok := true;
    }

    // The layers not in the store yet, in the order the manifest lists them.
    method Missing(layers: seq<Digest>) returns (ok: bool, pending: seq<Digest>)
      ensures ok <==> forall l :: l in layers ==> ValidDigest(l)
      ensures ok ==> pending == Lacking(layers, disk)
    {
      hide ValidDigest;
      pending := [];
      ok := true;
      for n := 0 to |layers|
        invariant ok && forall l :: l in layers[..n] ==> ValidDigest(l)
        invariant pending == Lacking(layers[..n], disk)
      {
        if !ValidDigest(layers[n]) {
          return false, pending;
        }
        if layers[n] !in disk.layers {
          pending := pending + [layers[n]];
        }
        assert layers[..n + 1][..n] == layers[..n];
        assert layers[..n + 1] == layers[..n] + [layers[n]];
      }
      assert layers[..|layers|] == layers;
    }

    // ---- Building ----

    // What an install script writes becomes one more layer on top of the base image's. A build that fails for any
    // reason leaves refs, blobs and layers exactly as they were.
    method Build(app: App, id: string, script: Script) returns (ok: bool)
      requires Valid() && app.install && IsClean(id) && Unused(Now(), BuildDigest(id))
      modifies this
      ensures Valid() && origin == old(origin) && old(log) <= log
      ensures ok <==> BuildWorks(old(disk), app, script)
      ensures ok <==>
                && app.whole.Some? && MarkerName(app.whole.value) in old(disk).refs
                && var text := old(disk).refs[MarkerName(app.whole.value)];
                && text.Names? && text.digest in old(disk).blobs && old(disk).blobs[text.digest].Doc?
                && old(disk).blobs[text.digest].manifest.config in old(disk).blobs
                && old(disk).blobs[old(disk).blobs[text.digest].manifest.config].Data?
                && script.succeeds
      ensures app.whole.None? ==> log == old(log) && disk == old(disk)
      // No staging entry is left behind either way.
      ensures disk.stages == old(disk).stages && disk.downloads == old(disk).downloads
      ensures Grown(old(disk), disk) && (ok ==> BuiltOn(disk, old(disk).refs, app, id, script))
      ensures if ok then
                var d := BuildDigest(id);
                var base := ManifestOf(old(disk), old(disk).refs[MarkerName(app.whole.value)]).value;
                && disk.refs == old(disk).refs[MarkerName(LOCAL_PREFIX + app.name) := Names(d)]
                && disk.blobs == old(disk).blobs[d := Doc(base.(layers := base.layers + [d]))]
                && disk.layers == old(disk).layers[d := Whole(script.writes)]
              else
                disk.refs == old(disk).refs && disk.blobs == old(disk).blobs && disk.layers == old(disk).layers
    {
      hide Replay, Legal, Inv, Grown, BuiltOn, Whole, MarkerName, ValidDigest;
      GrownByNothing(disk);
      if app.whole.None? || MarkerName(app.whole.value) !in disk.refs {
        return false;
      }
      var read := ManifestOf(disk, disk.refs[MarkerName(app.whole.value)]);
      if read.None? {
        return false;
      }
      ValidMeansInv();
      var base, d := read.value, BuildDigest(id);
      ReadIsHeld(Now(), MarkerName(app.whole.value));
      ok := RunScript(d, Reads(disk.blobs, base.config), script);
      if ok {
        BuildNamesAreDigests(id);
        FileBuild(MarkerName(LOCAL_PREFIX + app.name), d, base.(layers := base.layers + [d]), script.writes);
        BuildAdds(old(disk), disk, base, app, id, script);
        PutDrop(old(disk).stages, Upper(d), Whole(script.writes), Work(d), {});
      } else {
        GrownBySameBlobs(old(disk), disk);
      }
    }

    // The upper directory fills up as the script writes; it outlives the script only when that succeeds.
    method RunScript(d: Digest, configRead: bool, script: Script) returns (ran: bool)
      requires Valid() && Upper(d) !in disk.stages && Work(d) !in disk.stages
      modifies this`disk, this`log
      ensures Valid() && old(log) <= log && (ran <==> configRead && script.succeeds)
      ensures disk == if ran then old(disk).(stages := old(disk).stages[Upper(d) := Whole(script.writes)]) else old(disk)
    {
      hide Replay, Legal, Inv, ManifestOf, Held, Whole, BlobLive, LayerLive, Readable;
      Do(OpenStage(Upper(d)));
      Do(OpenStage(Work(d)));
      if configRead {
        WriteUpper(d, script.writes);
        PutTwice(old(disk).stages, Upper(d), {}, Work(d), {}, Whole(script.writes));
      }
      PutDrop(old(disk).stages, Upper(d), if configRead then Whole(script.writes) else {}, Work(d), {});
      ran := configRead && script.succeeds;
      Do(ClearStage(Work(d)));
      if !ran {
        Do(ClearStage(Upper(d)));
      }
    }

    method WriteUpper(d: Digest, writes: nat)
      requires Valid() && Upper(d) in disk.stages && disk.stages[Upper(d)] == {}
      modifies this`disk, this`log
      ensures Valid() && old(log) <= log
      ensures disk == old(disk).(stages := old(disk).stages[Upper(d) := Whole(writes)])
    {
      hide Replay, Legal, Inv;
      for n := 0 to writes
        invariant Valid() && old(log) <= log
        invariant disk == old(disk).(stages := old(disk).stages[Upper(d) := Whole(n)])
      {
        Do(Unpack(Upper(d), n));
      }
    }

    // The layer first, then the manifest that names it, then the ref that names the manifest.
    method FileBuild(marker: Marker, d: Digest, manifest: Manifest, writes: nat)
      requires Valid() && ValidDigest(d) && d !in truth.docs && d !in truth.sizes && d !in disk.layers
      requires Upper(d) in disk.stages && disk.stages[Upper(d)] == Whole(writes)
      requires Held(disk.(layers := disk.layers[d := {}]), manifest)
      modifies this
      ensures Valid() && origin == old(origin) && old(log) <= log
      ensures disk == old(disk).(refs := old(disk).refs[marker := Names(d)],
                                 blobs := old(disk).blobs[d := Doc(manifest)],
                                 layers := old(disk).layers[d := Whole(writes)],
                                 stages := old(disk).stages - {Upper(d)})
      ensures Held(disk, manifest)
    {
      hide Replay, Legal, Inv, ValidDigest, Whole, Grown, ManifestOf;
      FileLayer(d, manifest, writes);
      var stored := StoreBlob(d, Doc(manifest));
      RecordRef(marker, d);
    }

    method FileLayer(d: Digest, manifest: Manifest, writes: nat)
      requires Valid() && d !in truth.docs && d !in truth.sizes
      requires Upper(d) in disk.stages && disk.stages[Upper(d)] == Whole(writes)
      modifies this
      ensures Valid() && origin == old(origin) && old(log) <= log && clock == old(clock)
      ensures disk == old(disk).(layers := old(disk).layers[d := Whole(writes)], stages := old(disk).stages - {Upper(d)})
      ensures TrueDoc(truth, d) && truth.docs[d] == Doc(manifest)
    {
      hide Replay, Legal, Inv, Whole, Held, ManifestOf, BlobLive, LayerLive, Readable, Agrees;
      NewNameAgrees(truth, d, manifest, writes);
      Learned(Truth(map[d := Doc(manifest)], map[d := writes]));
      Do(CommitLayer(d));
    }

    // Bring an app's image into the store. Without `update` an image already recorded is left alone; an installed image
    // is left alone unless it is to be rebuilt.
    method Ensure(app: App, update: bool, rebuild: bool, answer: Option<Answer>, events: seq<Event>,
                  id: string, script: Script)
      returns (ok: bool)
      requires Valid() && Admits(Now(), answer, id)
      modifies this
      ensures Valid() && origin == old(origin) && old(log) <= log && Grown(old(disk), disk)
      ensures var r := EnsureApp(old(Now()), app, update, rebuild, answer, events, id, script);
        && ok == r.ok && disk.refs == r.refs
        // What a registry that was asked had to answer is all there.
        && (ok && r.contact.Some? ==>
              answer.Some? && r.contact.value.arrived == answer && Holds(disk, answer.value)
              && (WellNamed(app) ==> Shows(disk, r.contact.value.image, answer.value)))
      // Told from the app, the refs and the flags alone. An image that comes some other way, one that is recorded and
      // not to be updated, and a built one that is recorded and not to be rebuilt: nothing is done and nobody asked.
      ensures (!app.install && !app.pull)
              || (!app.install && app.whole.Some? && !update && MarkerName(app.whole.value) in old(disk).refs)
              || (app.install && !rebuild && MarkerName("localhost/climate/" + app.name) in old(disk).refs) ==>
                && ok && disk == old(disk) && log == old(log)
                && EnsureApp(old(Now()), app, update, rebuild, answer, events, id, script).contact.None?
      // A reference that does not parse.
      ensures app.whole.None? && (if app.install then rebuild || MarkerName("localhost/climate/" + app.name) !in old(disk).refs
                                  else app.pull) ==>
                !ok && disk == old(disk) && log == old(log)
      // An image to be fetched, and one to be built.
      ensures !app.install && app.pull && app.whole.Some? && (update || MarkerName(app.whole.value) !in old(disk).refs) ==>
                (ok <==> FetchWorks(old(disk), answer, events))
      ensures app.install && app.whole.Some? && (rebuild || MarkerName("localhost/climate/" + app.name) !in old(disk).refs) ==>
                (ok <==>
                   if app.pull && (update || MarkerName(app.whole.value) !in old(disk).refs) then
                     FetchWorks(old(disk), answer, events) && script.succeeds
                     && Reads(old(truth).docs + News(answer.value).docs, answer.value.manifest.config)
                   else BuildWorks(old(disk), app, script))
      // A built image is its base image with the script's layer on top.
      ensures ok ==> disk.downloads == old(disk).downloads
      ensures ok && Builds(old(disk).refs, app, rebuild) ==>
                BuiltOn(disk, Based(old(Now()), app, update, answer, events).refs, app, id, script)
    {
      hide Replay, Legal, Inv, News, FetchWorks, BuildWorks, BuildWillWork, Unused, Mentions, Consistent, Fetchable,
           MarkerName, SameApartFrom, Grown, Held, ManifestOf, BuiltOn, ValidAppName, FullReference, Reads;
      GrownByNothing(disk);
      EnsureInPlainTerms(Now(), app, update, rebuild, answer, events, id, script);
      if WellNamed(app) && app.whole.Some? {
        KeysApart(app.whole.value, app);
      }
      if !app.install {
        if !app.pull {
          return true;
        }
        ok := Fetch(app.whole, update, answer, events);
        return;
      }
      if !rebuild && MarkerName(LOCAL_PREFIX + app.name) in disk.refs {
        return true;
      }
      ok := BuildAnew(app, update, answer, events, id, script);
    }

    // A built image is made on its base image as the registry has it now, if that may be fetched.
    method BuildAnew(app: App, update: bool, answer: Option<Answer>, events: seq<Event>, id: string, script: Script)
      returns (ok: bool)
      requires Valid() && app.install && Admits(Now(), answer, id)
      modifies this
      ensures Valid() && origin == old(origin) && old(log) <= log && Grown(old(disk), disk)
      ensures var base := Based(old(Now()), app, update, answer, events);
        && (ok <==> base.ok && BuildWillWork(old(Now()), app, update, answer, script))
        && disk.refs == (if ok then base.refs[MarkerName(LOCAL_PREFIX + app.name) := Names(BuildDigest(id))]
                         else base.refs)
        && (ok && base.contact.Some? ==> answer.Some? && Holds(disk, answer.value))
        && (ok ==> BuiltOn(disk, base.refs, app, id, script) && disk.downloads == old(disk).downloads)
      ensures app.whole.None? ==> disk == old(disk) && log == old(log)
    {
      hide Replay, Legal, Inv, News, FetchWorks, BuildWillWork, Unused, Consistent, Fetchable, Grown, MarkerName,
           SameApartFrom, Held, BuiltOn, ManifestOf;
      GrownByNothing(disk);
      if app.pull {
        ok := Fetch(app.whole, update, answer, events);
        if !ok {
          return;
        }
      }
      ghost var fetched := Now();
      StaysUnused(old(Now()), fetched, answer, BuildDigest(id));
      ValidMeansInv();
      FetchedToBuildOn(old(Now()), fetched, app, update, answer, script);
      ok := Build(app, id, script);
      GrownFurther(old(disk), fetched.disk, disk);
      if answer.Some? {
        HeldOnwards(fetched.disk, disk, answer.value);
      }
    }

    method Fetch(whole: Option<string>, update: bool, answer: Option<Answer>, events: seq<Event>) returns (ok: bool)
      requires Valid() && (answer.Some? ==> Consistent(truth, answer.value) && Fetchable(disk, answer.value))
      modifies this
      ensures Valid() && origin == old(origin) && old(log) <= log && Grown(old(disk), disk)
      ensures var r := Fetched(old(Now()), whole, update, answer, events);
        && ok == r.ok && disk.refs == r.refs
        && (r.contact.None? ==> Now() == old(Now()) && log == old(log))
        && (ok ==> disk.downloads == old(disk).downloads)
        && (ok && r.contact.Some? ==>
              answer.Some? && Holds(disk, answer.value) && truth.docs == old(truth).docs + News(answer.value).docs)
      ensures if answer.Some? then SameApartFrom(old(Now()), Now(), answer.value) else disk == old(disk) && truth == old(truth)
    {
      hide Replay, Legal, Inv, News, FetchWorks, Consistent, Fetchable, Held, ManifestOf, Grown, MarkerName, Mentions;
      GrownByNothing(disk);
      NothingToFetch(disk, events);
      if whole.None? {
        return false;
      }
      if !update && MarkerName(whole.value) in disk.refs {
        return true;
      }
      ok := FetchImage(MarkerName(whole.value), answer, events);
    }

    // ---- Cleaning ----

    method LiveSet() returns (read: bool, liveBlobs: set<Digest>, liveLayers: set<Digest>)
      ensures read <==> Readable(disk)
      ensures read ==> forall d :: d in liveBlobs <==> BlobLive(disk, d)
      ensures read ==> forall d :: d in liveLayers <==> LayerLive(disk, d)
    {
      liveBlobs, liveLayers := {}, {};
      var todo := disk.refs.Keys;
      while todo != {}
        invariant todo <= disk.refs.Keys
        invariant forall k :: k in disk.refs && k !in todo && !disk.refs[k].Blank? ==>
                    ManifestOf(disk, disk.refs[k]).Some?
        invariant forall d :: d in liveBlobs <==>
                    exists k :: k in disk.refs && k !in todo && disk.refs[k].Names? &&
                                (disk.refs[k].digest == d ||
                                 (ManifestOf(disk, disk.refs[k]).Some? &&
                                  ManifestOf(disk, disk.refs[k]).value.config == d))
        invariant forall d :: d in liveLayers <==>
                    exists k :: k in disk.refs && k !in todo && ManifestOf(disk, disk.refs[k]).Some? &&
                                d in ManifestOf(disk, disk.refs[k]).value.layers
      {
        var k :| k in todo;
        todo := todo - {k};
        if !disk.refs[k].Blank? {
          match ManifestOf(disk, disk.refs[k]) {
            case None =>
              return false, {}, {};
            case Some(m) =>
              liveBlobs := liveBlobs + {disk.refs[k].digest} + {m.config};
              liveLayers := liveLayers + set l | l in m.layers;
          }
        }
      }
      read := true;
    }

    method GcImages()
      requires Valid()
      modifies this`disk, this`log
      ensures Valid() && old(log) <= log
      ensures disk == Collected(old(disk))
      // Some ref that is not blank leads to no manifest: nothing is touched.
      ensures (exists k :: k in old(disk).refs && !old(disk).refs[k].Blank? &&
                           !(old(disk).refs[k].Names? && old(disk).refs[k].digest in old(disk).blobs
                             && old(disk).blobs[old(disk).refs[k].digest].Doc?)) ==>
                disk == old(disk) && log == old(log)
      // They all do: no staging entry is left, and of the rest exactly what a ref names or its manifest lists.
      ensures (forall k :: k in old(disk).refs && !old(disk).refs[k].Blank? ==>
                 old(disk).refs[k].Names? && old(disk).refs[k].digest in old(disk).blobs
                 && old(disk).blobs[old(disk).refs[k].digest].Doc?) ==>
        && disk.refs == old(disk).refs && disk.stages == map[] && disk.downloads == map[]
        && (forall d :: d in disk.blobs <==>
              d in old(disk).blobs &&
              exists k :: k in old(disk).refs && old(disk).refs[k].Names? &&
                          (old(disk).refs[k].digest == d
                           || old(disk).blobs[old(disk).refs[k].digest].manifest.config == d))
        && (forall d :: d in disk.blobs ==> disk.blobs[d] == old(disk).blobs[d])
        && (forall d :: d in disk.layers <==>
              d in old(disk).layers &&
              exists k :: k in old(disk).refs && old(disk).refs[k].Names? &&
                          d in old(disk).blobs[old(disk).refs[k].digest].manifest.layers)
        && (forall d :: d in disk.layers ==> disk.layers[d] == old(disk).layers[d])
    {
      hide Replay, Legal, Inv, BlobLive, LayerLive, Collected, ManifestOf;
      var read, liveBlobs, liveLayers := LiveSet();
      if !read {
        UnreadableInPlainTerms(disk);
        return;
      }
      ReadableInPlainTerms(disk);
      CollectedInPlainTerms(disk);
      Sweep(liveBlobs, liveLayers);
    }

    method Sweep(liveBlobs: set<Digest>, liveLayers: set<Digest>)
      requires Valid() && Readable(disk)
      requires forall d :: d in liveBlobs <==> BlobLive(disk, d)
      requires forall d :: d in liveLayers <==> LayerLive(disk, d)
      modifies this`disk, this`log
      ensures Valid() && old(log) <= log
      ensures disk == Collected(old(disk))
    {
      hide Replay, Legal, Inv;
      SweepBlobs(liveBlobs);
      assert KeepsLive(old(disk), disk);
      SweepLayers(old(disk), liveLayers);
      SweepStages();
      SweepDownloads();
      assert disk == Swept(old(disk));
    }

    method SweepBlobs(live: set<Digest>)
      requires Valid() && Readable(disk) && forall d :: d in live <==> BlobLive(disk, d)
      modifies this`disk, this`log
      ensures Valid() && old(log) <= log
      ensures disk == old(disk).(blobs := Swept(old(disk)).blobs)
    {
      hide Replay, Legal, Inv;
      var todo := disk.blobs.Keys;
      while todo != {}
        invariant Valid() && old(log) <= log && todo <= old(disk).blobs.Keys
        invariant disk == old(disk).(blobs := disk.blobs)
        invariant forall d :: d in disk.blobs <==> d in old(disk).blobs && (d in todo || d in live)
        invariant forall d :: d in disk.blobs ==> disk.blobs[d] == old(disk).blobs[d]
      {
        var d :| d in todo;
        todo := todo - {d};
        if d !in live {
          LiveStays(old(disk), disk);
          Do(DropBlob(d));
        }
      }
      assert disk.blobs == Swept(old(disk)).blobs;
    }

    method SweepLayers(ghost start: Disk, live: set<Digest>)
      requires Valid() && Readable(start) && KeepsLive(start, disk) && forall d :: d in live <==> LayerLive(start, d)
      modifies this`disk, this`log
      ensures Valid() && old(log) <= log
      ensures disk == old(disk).(layers := map d | d in old(disk).layers && d in live :: old(disk).layers[d])
    {
      hide Replay, Legal, Inv;
      var todo := disk.layers.Keys;
      while todo != {}
        invariant Valid() && old(log) <= log && todo <= old(disk).layers.Keys
        invariant disk == old(disk).(layers := disk.layers)
        invariant forall d :: d in disk.layers <==> d in old(disk).layers && (d in todo || d in live)
        invariant forall d :: d in disk.layers ==> disk.layers[d] == old(disk).layers[d]
      {
        var d :| d in todo;
        todo := todo - {d};
        if d !in live {
          LiveStays(start, disk);
          Do(DropLayer(d));
        }
      }
    }

    method SweepStages()
      requires Valid()
      modifies this`disk, this`log
      ensures Valid() && old(log) <= log && disk == old(disk).(stages := map[])
    {
      hide Replay, Legal, Inv;
      while disk.stages.Keys != {}
        invariant Valid() && old(log) <= log && disk == old(disk).(stages := disk.stages)
        decreases disk.stages.Keys
      {
        var s :| s in disk.stages.Keys;
        Do(ClearStage(s));
      }
      assert disk.stages == map[];
    }

    method SweepDownloads()
      requires Valid()
      modifies this`disk, this`log
      ensures Valid() && old(log) <= log && disk == old(disk).(downloads := map[])
    {
      hide Replay, Legal, Inv;
      while disk.downloads.Keys != {}
        invariant Valid() && old(log) <= log && disk == old(disk).(downloads := disk.downloads)
        decreases disk.downloads.Keys
      {
        var t :| t in disk.downloads.Keys;
        Do(DropDownload(t));
      }
      assert disk.downloads == map[];
    }

    method DropOrphanRefs(apps: seq<App>)
      requires Valid()
      modifies this`disk, this`log
      ensures Valid() && old(log) <= log
      ensures disk == OrphansDropped(old(disk), apps)
      // What stays: the image a loading app builds for itself, and the one it names, pulled or not.
      ensures forall k :: k in disk.refs <==>
                k in old(disk).refs &&
                exists i :: 0 <= i < |apps| && apps[i].loads &&
                            ((apps[i].install && k == MarkerName("localhost/climate/" + apps[i].name))
                             || (apps[i].whole.Some? && k == MarkerName(apps[i].whole.value)))
      ensures disk == old(disk).(refs := disk.refs) && forall k :: k in disk.refs ==> disk.refs[k] == old(disk).refs[k]
    {
      hide Replay, Legal, Inv, MarkerKept, MarkerName, Held, ManifestOf, BlobLive, LayerLive, Readable;
      OrphansInPlainTerms(disk, apps);
      var live := LiveMarkers(apps);
      var todo := disk.refs.Keys;
      while todo != {}
        invariant Valid() && old(log) <= log && todo <= old(disk).refs.Keys
        invariant disk == old(disk).(refs := disk.refs)
        invariant forall k :: k in disk.refs <==> k in old(disk).refs && (k in todo || k in live)
        invariant forall k :: k in disk.refs ==> disk.refs[k] == old(disk).refs[k]
      {
        var k :| k in todo;
        todo := todo - {k};
        if k !in live {
          Do(DropRef(k));
        }
      }
      assert disk.refs == OrphansDropped(old(disk), apps).refs;
    }

    method LiveMarkers(apps: seq<App>) returns (live: set<Marker>)
      ensures forall k :: k in live <==> MarkerKept(apps, k)
    {
      hide MarkerName;
      live := {};
      for n := 0 to |apps|
        invariant forall k :: k in live <==> exists i :: 0 <= i < n && k in MarkersOf(apps[i])
      {
        if apps[n].loads {
          if ImageKey(apps[n]).Some? {
            live := live + {MarkerName(ImageKey(apps[n]).value)};
          }
          if apps[n].whole.Some? {
            live := live + {MarkerName(apps[n].whole.value)};
          }
        }
      }
    }

    method Clean(apps: seq<App>)
      requires Valid()
      modifies this`disk, this`log
      ensures Valid() && old(log) <= log
      ensures disk == Cleaned(old(disk), apps)
      // The refs loading apps ask for stay, and nothing they do not lead to, if they can be read.
      ensures forall k :: k in disk.refs <==>
                k in old(disk).refs &&
                exists i :: 0 <= i < |apps| && apps[i].loads &&
                            ((apps[i].install && k == MarkerName("localhost/climate/" + apps[i].name))
                             || (apps[i].whole.Some? && k == MarkerName(apps[i].whole.value)))
      ensures disk == Collected(disk)
    {
      hide Replay, Legal, Inv;
      hide Collected, MarkerName;
      DropOrphanRefs(apps);
      ghost var dropped := disk;
      GcImages();
      CollectingTwiceIsOnce(dropped);
      RefsSurvive(dropped);
    }

    // ---- Crashing ----

    // A crash takes the disk back to where some prefix of the log left it.
    method Crash(cut: nat)
      requires Valid() && cut <= |log|
      modifies this
      ensures Valid() && origin == old(origin) && log == old(log)[..cut]
      ensures Now() == Replay(origin, log) && Closed(Now())
    {
      LegalPrefix(origin, log, cut);
      CrashSafeClosure(origin, log, cut);
      log := log[..cut];
      truth := Replay(origin, log).truth;
      disk := Replay(origin, log).disk;
      var next: nat, todo := 0, disk.downloads.Keys;
      while todo != {}
        invariant forall t :: t in disk.downloads && t !in todo ==> t < next
      {
        var t :| t in todo;
        todo := todo - {t};
        next := if t < next then next else t + 1;
      }
      clock := next;
    }
  }

  lemma RefsSurvive(disk: Disk)
    ensures Collected(disk).refs == disk.refs
  {
  }

  lemma OrphansInPlainTerms(disk: Disk, apps: seq<App>)
    ensures var after := OrphansDropped(disk, apps);
      && after == disk.(refs := after.refs) && (forall k :: k in after.refs ==> after.refs[k] == disk.refs[k])
      && forall k :: k in after.refs <==>
           k in disk.refs &&
           exists i :: 0 <= i < |apps| && apps[i].loads &&
                       ((apps[i].install && k == MarkerName("localhost/climate/" + apps[i].name))
                        || (apps[i].whole.Some? && k == MarkerName(apps[i].whole.value)))
  {
    hide MarkerName;
  }

  lemma UnreadableInPlainTerms(disk: Disk)
    requires !Readable(disk)
    ensures Collected(disk) == disk
    ensures exists k :: k in disk.refs && !disk.refs[k].Blank? &&
                        !(disk.refs[k].Names? && disk.refs[k].digest in disk.blobs
                          && disk.blobs[disk.refs[k].digest].Doc?)
  {
  }

  lemma ReadableInPlainTerms(disk: Disk)
    requires Readable(disk)
    ensures forall k :: k in disk.refs && !disk.refs[k].Blank? ==>
              disk.refs[k].Names? && disk.refs[k].digest in disk.blobs && disk.blobs[disk.refs[k].digest].Doc?
  {
  }

  // ---- Temporary files ----

  lemma NoTemps(downloads: map<nat, Blob>, phases: seq<Phase>, temps: seq<nat>, clock: nat)
    requires |temps| == |phases| && forall i :: 0 <= i < |phases| ==> phases[i].Queued?
    ensures TempsTaken(downloads, downloads, phases, temps, clock)
  {
  }

  lemma TempsTell(kept: map<nat, Blob>, downloads: map<nat, Blob>, phases: seq<Phase>, temps: seq<nat>, clock: nat)
    requires TempsTaken(kept, downloads, phases, temps, clock)
    ensures |temps| == |phases| && forall i :: 0 <= i < |phases| && Flying(phases[i]) ==> temps[i] < clock
    ensures forall t :: t in downloads <==>
              t in kept || exists i :: 0 <= i < |phases| && Flying(phases[i]) && temps[i] == t
    ensures forall t :: t in kept ==> t in downloads && downloads[t] == kept[t]
  {
  }

  lemma TempStarts(kept: map<nat, Blob>, downloads: map<nat, Blob>, phases: seq<Phase>, temps: seq<nat>, temp: nat, i: nat)
    requires TempsTaken(kept, downloads, phases, temps, temp) && temp !in downloads
    requires i < |phases| && phases[i].Queued?
    ensures TempsTaken(kept, downloads[temp := Damaged], phases[i := Downloading], temps[i := temp], temp + 1)
  {
    var (phases', temps') := (phases[i := Downloading], temps[i := temp]);
    assert temps'[i] == temp;
    assert forall j :: 0 <= j < |phases| && j != i ==> phases'[j] == phases[j] && temps'[j] == temps[j];
  }

  // As long as a fetch is in flight its file is its own, whatever comes to be in it.
  lemma TempStays(kept: map<nat, Blob>, downloads: map<nat, Blob>, phases: seq<Phase>, temps: seq<nat>, clock: nat,
                  i: nat, next: Phase)
    requires TempsTaken(kept, downloads, phases, temps, clock)
    requires i < |phases| && Flying(phases[i]) && Flying(next)
    ensures TempsTaken(kept, downloads, phases[i := next], temps, clock)
  {
    var phases' := phases[i := next];
    assert forall j :: 0 <= j < |phases| ==> Flying(phases'[j]) == Flying(phases[j]);
  }

  lemma TempFills(kept: map<nat, Blob>, downloads: map<nat, Blob>, phases: seq<Phase>, temps: seq<nat>, clock: nat,
                  i: nat, content: Blob)
    requires TempsTaken(kept, downloads, phases, temps, clock) && i < |phases| && Flying(phases[i])
    ensures TempsTaken(kept, downloads[temps[i] := content], phases, temps, clock)
  {
  }

  lemma TempEnds(kept: map<nat, Blob>, downloads: map<nat, Blob>, phases: seq<Phase>, temps: seq<nat>, clock: nat,
                 i: nat, next: Phase)
    requires TempsTaken(kept, downloads, phases, temps, clock)
    requires i < |phases| && Flying(phases[i]) && !Flying(next)
    ensures TempsTaken(kept, downloads - {temps[i]}, phases[i := next], temps, clock)
  {
    var phases' := phases[i := next];
    assert forall j :: 0 <= j < |phases| && j != i ==> phases'[j] == phases[j];
  }

  lemma NewsTells(truth: Truth, answer: Answer)
    requires Consistent(truth, answer)
    ensures Agrees(truth, News(answer)) && TrueDoc(News(answer), answer.digest)
    ensures News(answer).docs[answer.digest] == Doc(answer.manifest)
    ensures answer.config.Some? ==>
              answer.manifest.config in News(answer).docs
              && News(answer).docs[answer.manifest.config] == answer.config.value
  {
  }

  lemma NewsSizes(before: Truth, after: Truth, answer: Answer)
    requires Consistent(before, answer) && after.sizes == before.sizes + News(answer).sizes
    ensures Sized(answer.manifest.layers, answer.archives)
    ensures SizesTrue(answer.manifest.layers, answer.archives, after)
  {
  }

  lemma HeadAndContents(headed: Disk, after: Disk, answer: Answer)
    requires ManifestOf(headed, Names(answer.digest)) == Some(answer.manifest) && answer.manifest.config in headed.blobs
    requires after.blobs == headed.blobs
    ensures answer.digest in after.blobs
    ensures (forall l :: l in answer.manifest.layers ==> l in after.layers) ==> Holds(after, answer)
  {
  }

  lemma HeadStaysApart(w: World, v: World, answer: Answer)
    requires v.truth.docs == w.truth.docs + News(answer).docs && v.truth.sizes == w.truth.sizes + News(answer).sizes
    requires v.disk.layers == w.disk.layers && v.disk.stages == w.disk.stages
    requires w.disk.blobs.Keys <= v.disk.blobs.Keys <= w.disk.blobs.Keys + {answer.digest, answer.manifest.config}
    ensures SameApartFrom(w, v, answer)
  {
  }

  lemma ApartFollows(w: World, u: World, v: World, answer: Answer)
    requires SameApartFrom(w, u, answer)
    requires forall d :: d !in answer.manifest.layers ==> SameAt(u, v, d)
    ensures SameApartFrom(w, v, answer)
  {
  }

  lemma RefsStayApart(w: World, u: World, v: World, answer: Answer)
    requires SameApartFrom(w, u, answer)
    requires v == World(u.disk.(refs := v.disk.refs), u.truth)
    ensures SameApartFrom(w, v, answer)
  {
  }

  lemma FreshIsSafe(w: World, pending: seq<Digest>, sizes: map<Digest, nat>)
    requires Inv(w) && Sized(pending, sizes) && SizesTrue(pending, sizes, w.truth)
    ensures FetchInv(Fresh(pending, w.disk), pending, sizes)
  {
  }

  // What a manifest's layers come to once those that were lacking have been through the interleaving.
  lemma ContentsFetched(w: World, v: World, layers: seq<Digest>, sizes: map<Digest, nat>, events: seq<Event>)
    requires Inv(w) && v.truth == w.truth && v.disk.blobs == w.disk.blobs
    requires Sized(layers, sizes)
    requires var pending := Lacking(layers, w.disk);
      && Sized(pending, sizes) && NoneRepeated(pending, sizes)
      && var g := Run(Fresh(pending, w.disk), pending, sizes, events);
      v.disk.stages == g.stages && v.disk.layers == g.layers
    ensures Grown(w.disk, v.disk)
    ensures AllFetched(Lacking(layers, w.disk), sizes, w.disk, events) ==> forall l :: l in layers ==> l in v.disk.layers
    ensures forall d :: d !in layers ==> SameAt(w, v, d)
  {
    hide Run, Inv, Lacking;
    var pending := Lacking(layers, w.disk);
    var start := Fresh(pending, w.disk);
    InterleavingsAreSafe(start, pending, sizes, events);
    OtherStagesStay(start, pending, sizes, events);
    if AllFetched(pending, sizes, w.disk, events) {
      forall l | l in layers ensures l in v.disk.layers {
        if l !in w.disk.layers {
          var i :| 0 <= i < |pending| && pending[i] == l;
        }
      }
    }
  }

  // Whether layers come through has nothing to do with blobs.
  lemma FetchedAlike(answer: Answer, events: seq<Event>, before: Disk, after: Disk)
    requires after.layers == before.layers && after.stages == before.stages
    ensures Lacking(answer.manifest.layers, after) == Lacking(answer.manifest.layers, before)
    ensures var pending := Lacking(answer.manifest.layers, before);
      AllFetched(pending, answer.archives, after, events) <==> AllFetched(pending, answer.archives, before, events)
  {
    LackingAlike(answer.manifest.layers, before, after);
    var pending := Lacking(answer.manifest.layers, before);
    assert Fresh(pending, after) == Fresh(pending, before);
  }

  lemma {:induction false} LackingAlike(layers: seq<Digest>, before: Disk, after: Disk)
    requires after.layers == before.layers
    ensures Lacking(layers, after) == Lacking(layers, before)
  {
    if layers != [] {
      LackingAlike(layers[..|layers| - 1], before, after);
    }
  }

  // With its base image fetched a build works just when it was going to.
  lemma FetchedToBuildOn(w: World, v: World, app: App, update: bool, answer: Option<Answer>, script: Script)
    requires Inv(v)
    requires if app.pull && app.whole.Some? && Contacts(w.disk.refs, app.whole.value, update) then
               && answer.Some? && v.truth.docs == w.truth.docs + News(answer.value).docs
               && v.disk.refs == w.disk.refs[MarkerName(app.whole.value) := Names(answer.value.digest)]
               && Holds(v.disk, answer.value)
             else v.disk == w.disk
    ensures BuildWorks(v.disk, app, script) <==> BuildWillWork(w, app, update, answer, script)
  {
    hide News;
  }

  lemma GrownByNothing(disk: Disk)
    ensures Grown(disk, disk)
  {
  }

  // Writing what a digest stands for can mend a blob but never change a good one.
  lemma GrownByTrueBlob(w: World, d: Digest, blob: Blob)
    requires Inv(w) && d in w.truth.docs && w.truth.docs[d] == blob
    ensures Grown(w.disk, w.disk.(blobs := w.disk.blobs[d := blob]))
  {
  }

  lemma GrownFurther(before: Disk, half: Disk, after: Disk)
    requires Grown(before, half) && Grown(half, after)
    ensures Grown(before, after)
  {
  }

  lemma ReadIsHeld(w: World, k: Marker)
    requires Inv(w) && k in w.disk.refs && ManifestOf(w.disk, w.disk.refs[k]).Some?
    ensures Held(w.disk, ManifestOf(w.disk, w.disk.refs[k]).value)
  {
    ReadManifestsAreTrue(w, k);
  }

  lemma BuildAdds(before: Disk, after: Disk, base: Manifest, app: App, id: string, script: Script)
    requires app.whole.Some? && MarkerName(app.whole.value) in before.refs && script.succeeds
    requires ManifestOf(before, before.refs[MarkerName(app.whole.value)]) == Some(base) && Held(before, base)
    requires var d := BuildDigest(id);
      && d !in before.blobs && d !in before.layers
      && after.blobs == before.blobs[d := Doc(base.(layers := base.layers + [d]))]
      && after.layers == before.layers[d := Whole(script.writes)]
    ensures Grown(before, after) && BuiltOn(after, before.refs, app, id, script)
  {
    hide Whole, MarkerName;
  }

  lemma BuildNamesAreDigests(id: string)
    requires IsClean(id)
    ensures ValidDigest(BuildDigest(id))
  {
    DigestAndPathUndoEachOther(BuildDigest(id), BUILD_ALGO, id);
    assert BuildDigest(id) == DigestOf((BUILD_ALGO, id));
  }

  lemma NewNameAgrees(truth: Truth, d: Digest, manifest: Manifest, writes: nat)
    requires d !in truth.docs && d !in truth.sizes
    ensures Agrees(truth, Truth(map[d := Doc(manifest)], map[d := writes]))
  {
  }

  lemma HeldOnwards(before: Disk, after: Disk, answer: Answer)
    requires Grown(before, after)
    ensures Holds(before, answer) ==> Holds(after, answer)
  {
  }

  lemma NothingToFetch(disk: Disk, events: seq<Event>)
    ensures !FetchWorks(disk, None, events)
  {
  }

  lemma EnsureInPlainTerms(w: World, app: App, update: bool, rebuild: bool, answer: Option<Answer>, events: seq<Event>,
                           id: string, script: Script)
    ensures var (r, refs) := (EnsureApp(w, app, update, rebuild, answer, events, id, script), w.disk.refs);
      var builds := rebuild || MarkerName("localhost/climate/" + app.name) !in refs;
      && ((!app.install && !app.pull)
          || (!app.install && app.whole.Some? && !update && MarkerName(app.whole.value) in refs)
          || (app.install && !builds) ==>
            r.ok && r.contact.None?)
      && (app.whole.None? && (if app.install then builds else app.pull) ==> !r.ok && r.contact.None?)
      && (!app.install && app.pull && app.whole.Some? && (update || MarkerName(app.whole.value) !in refs) ==>
            (r.ok <==> FetchWorks(w.disk, answer, events)))
      && (app.install && app.whole.Some? && builds ==>
            (r.ok <==>
               if app.pull && (update || MarkerName(app.whole.value) !in refs) then
                 FetchWorks(w.disk, answer, events) && script.succeeds
                 && Reads(w.truth.docs + News(answer.value).docs, answer.value.manifest.config)
               else BuildWorks(w.disk, app, script)))
  {
    hide MarkerName, News, ManifestOf, AllFetched, Lacking, ValidDigest;
  }

  lemma FetchInPlainTerms(disk: Disk, answer: Answer, events: seq<Event>)
    ensures FetchWorks(disk, Some(answer), events) <==>
              && ValidDigest(answer.digest) && ValidDigest(answer.manifest.config)
              && (forall l :: l in answer.manifest.layers ==> ValidDigest(l))
              && (answer.config.Some? || answer.manifest.config in disk.blobs || answer.manifest.config == answer.digest)
              && var pending := Lacking(answer.manifest.layers, disk);
              && Sized(pending, answer.archives)
              && var g := Run(Fresh(pending, disk), pending, answer.archives, events);
                 forall i :: 0 <= i < |pending| ==> g.phases[i].Done?
  {
    hide ValidDigest, Lacking;
    var pending := Lacking(answer.manifest.layers, disk);
    if Sized(pending, answer.archives) {
      AllFetchedInPlainTerms(pending, answer.archives, disk, events,
                             Run(Fresh(pending, disk), pending, answer.archives, events));
    }
  }

  lemma AllFetchedInPlainTerms(pending: seq<Digest>, sizes: map<Digest, nat>, disk: Disk, events: seq<Event>, g: Fetches)
    requires Sized(pending, sizes) && g == Run(Fresh(pending, disk), pending, sizes, events)
    ensures AllFetched(pending, sizes, disk, events) <==> forall i :: 0 <= i < |pending| ==> g.phases[i].Done?
  {
  }

  // An image that arrived can be run: its layers are all there, whole, and so is its config.
  lemma ArrivedImageReads(w: World, image: string, answer: Answer)
    requires Inv(w) && Shows(w.disk, image, answer)
    requires answer.manifest.config in w.truth.docs && w.truth.docs[answer.manifest.config].Data?
    ensures ReadImage(w.disk, image).Ok?
    ensures var read := ReadImage(w.disk, image).value;
      && read.layers == answer.manifest.layers && w.truth.docs[answer.manifest.config] == Data(read.config)
      && forall l :: l in read.layers ==>
           l in read.trees && l in w.truth.sizes && read.trees[l] == Whole(w.truth.sizes[l])
  {
    ReadsInPlainTerms(w.disk, image);
    ReadImagesAreWhole(w, image);
  }

  // There is always a way for an image to arrive that can be fetched at all.
  lemma FetchCanWork(disk: Disk, answer: Answer) returns (events: seq<Event>)
    requires ValidDigest(answer.digest) && ValidDigest(answer.manifest.config)
    requires forall l :: l in answer.manifest.layers ==> ValidDigest(l)
    requires answer.config.Some? || answer.manifest.config in disk.blobs || answer.manifest.config == answer.digest
    requires Fetchable(disk, answer)
    ensures FetchWorks(disk, Some(answer), events)
  {
    hide ValidDigest, Lacking, Run;
    var pending := Lacking(answer.manifest.layers, disk);
    assert forall m :: 0 <= m < |pending| ==> pending[m] in pending;
    events := AllCanArrive(pending, answer.archives, disk, |pending|);
    AllFetchedInPlainTerms(pending, answer.archives, disk, events,
                           Run(Fresh(pending, disk), pending, answer.archives, events));
    FetchInPlainTerms(disk, answer, events);
  }

  // A registry may say anything of digests nothing is known of yet, as long as it says it once.
  lemma NewImagesAreAdmitted(w: World, answer: Answer)
    requires forall d :: Mentions(answer, d) ==> d !in w.truth.docs && d !in w.truth.sizes
    requires answer.manifest.config != answer.digest && (answer.config.Some? ==> answer.config.value != Damaged)
    requires forall l :: l in answer.manifest.layers ==> l in answer.archives
    requires Different(answer.manifest.layers)
    ensures Consistent(w.truth, answer) && Fetchable(w.disk, answer)
  {
    hide Lacking;
    LackingRepeatsNothing(answer.manifest.layers, w.disk);
    var pending := Lacking(answer.manifest.layers, w.disk);
    assert forall i :: 0 <= i < |pending| ==> pending[i] in pending;
  }

  predicate Different(digests: seq<Digest>) {
    forall i, j :: 0 <= i < j < |digests| ==> digests[i] != digests[j]
  }

  lemma {:induction false} LackingRepeatsNothing(layers: seq<Digest>, disk: Disk)
    requires Different(layers)
    ensures Different(Lacking(layers, disk))
  {
    if layers != [] {
      var before := layers[..|layers| - 1];
      var last := layers[|layers| - 1];
      assert last !in before;
      LackingRepeatsNothing(before, disk);
      OneMoreDifferent(Lacking(before, disk), last);
    }
  }

  lemma OneMoreDifferent(digests: seq<Digest>, d: Digest)
    requires Different(digests) && d !in digests
    ensures Different(digests + [d]) && digests + [] == digests
  {
  }

  // A reference and a built image never share a marker.
  lemma KeysApart(image: string, app: App)
    requires FullReference(image) && ValidAppName(app.name)
    ensures MarkerName(image) != MarkerName(LOCAL_PREFIX + app.name)
  {
    var local := LOCAL_PREFIX + app.name;
    assert local[|LOCAL_PREFIX|..] == app.name;
    assert ':' !in local;
    MarkersNeverCollide(image, local);
  }

  // A fetch does not use up a build's name.
  lemma StaysUnused(w: World, v: World, answer: Option<Answer>, d: Digest)
    requires Unused(w, d) && (answer.Some? ==> !Mentions(answer.value, d))
    requires w == v || if answer.Some? then SameApartFrom(w, v, answer.value) else v.disk == w.disk && v.truth == w.truth
    ensures Unused(v, d)
  {
  }

  lemma GrownBySameBlobs(before: Disk, after: Disk)
    requires after.blobs == before.blobs && after.layers == before.layers
    ensures Grown(before, after)
  {
  }

  lemma PutTwice<K, V>(m: map<K, V>, a: K, x: V, b: K, y: V, x': V)
    requires a != b
    ensures m[a := x][b := y][a := x'] == m[a := x'][b := y]
  {
  }

  lemma PutDrop<K, V>(m: map<K, V>, a: K, x: V, b: K, y: V)
    requires a != b && a !in m && b !in m
    ensures m[a := x][b := y] - {b} == m[a := x] && m[a := x] - {a} == m
  {
  }

  // The manifests refs lead to are still where they were, so a sweep under way sees the same things in use.
  ghost predicate KeepsLive(before: Disk, after: Disk) {
    && after.refs == before.refs
    && forall d :: d in before.blobs && BlobLive(before, d) ==> d in after.blobs && after.blobs[d] == before.blobs[d]
  }

  lemma LiveStays(before: Disk, after: Disk)
    requires Readable(before) && KeepsLive(before, after)
    ensures Readable(after)
    ensures forall d :: BlobLive(after, d) <==> BlobLive(before, d)
    ensures forall d :: LayerLive(after, d) <==> LayerLive(before, d)
  {
    forall k | k in before.refs
      ensures ManifestOf(after, after.refs[k]) == ManifestOf(before, before.refs[k])
    {
      if before.refs[k].Names? {
        assert BlobLive(before, before.refs[k].digest);
      }
    }
  }

  // Fetching layers touches no staging directory but their own.
  lemma {:induction false} OtherStagesStay(
      f: Fetches, pending: seq<Digest>, sizes: map<Digest, nat>, events: seq<Event>)
    requires |f.phases| == |pending| && Sized(pending, sizes)
    ensures forall s: Stage :: s.Work? || s.digest !in pending ==>
              (s in Run(f, pending, sizes, events).stages <==> s in f.stages)
  {
    if events != [] {
      OtherStagesStay(f, pending, sizes, events[..|events| - 1]);
    }
  }
}
