/** What bringing an app's image into the store takes, and what it comes to, told from how things stand beforehand. */
module ImageSpec {
  import opened Wrappers
  import opened StoreNames
  import opened StoreModel
  import opened LayerFetch

  // A registry's answer: the manifest of an image, its config unless that download fails, and how many entries each
  // layer's archive holds.
  datatype Answer = Answer(digest: Digest, manifest: Manifest, config: Option<Blob>, archives: map<Digest, nat>)

  function News(answer: Answer): Truth {
    Truth(
      (if answer.config.Some? then map[answer.manifest.config := answer.config.value] else map[])
        + map[answer.digest := Doc(answer.manifest)],
      map l | l in answer.manifest.layers && l in answer.archives :: answer.archives[l])
  }

  // Content addressing: a registry never gives one digest two meanings.
  predicate Consistent(truth: Truth, answer: Answer) {
    && Agrees(truth, News(answer))
    && (answer.config.Some? && answer.manifest.config == answer.digest ==>
          answer.config.value == Doc(answer.manifest))
    && Sized(answer.manifest.layers, answer.archives)
  }

  // The one thing asked for that nothing enforces, and only of the layers a fetch would bring in; see
  // LayerFetch.SafeExactlyWhenNoneRepeated.
  predicate Fetchable(disk: Disk, answer: Answer) {
    var pending := Lacking(answer.manifest.layers, disk);
    Sized(pending, answer.archives) && NoneRepeated(pending, answer.archives)
  }

  predicate Mentions(answer: Answer, d: Digest) {
    d == answer.digest || d == answer.manifest.config || d in answer.manifest.layers
  }

  // Nothing kept under a digest, or known of it, differs between two worlds.
  predicate SameAt(w: World, v: World, d: Digest) {
    && (d in w.truth.docs <==> d in v.truth.docs) && (d in w.truth.sizes <==> d in v.truth.sizes)
    && (d in w.disk.blobs <==> d in v.disk.blobs) && (d in w.disk.layers <==> d in v.disk.layers)
    && (Upper(d) in w.disk.stages <==> Upper(d) in v.disk.stages)
    && (Work(d) in w.disk.stages <==> Work(d) in v.disk.stages)
  }

  ghost predicate SameApartFrom(w: World, v: World, answer: Answer) {
    forall d :: !Mentions(answer, d) ==> SameAt(w, v, d)
  }

  // What unique_id promises of a build's name.
  predicate Unused(w: World, d: Digest) {
    && d !in w.truth.docs && d !in w.truth.sizes && d !in w.disk.blobs && d !in w.disk.layers
    && Upper(d) !in w.disk.stages && Work(d) !in w.disk.stages
  }

  // What the outside world owes a command that brings an image in.
  predicate Admits(w: World, answer: Option<Answer>, id: string) {
    && (answer.Some? ==>
          && Consistent(w.truth, answer.value) && Fetchable(w.disk, answer.value)
          && !Mentions(answer.value, BuildDigest(id)))
    && IsClean(id) && Unused(w, BuildDigest(id))
  }

  // How an install script fares: what it writes, and whether it exits with 0.
  datatype Script = Script(writes: nat, succeeds: bool)

  const BUILD_ALGO := "build"

  function BuildDigest(id: string): Digest {
    BUILD_ALGO + ":" + id
  }

  predicate Contacts(refs: map<Marker, RefText>, whole: string, update: bool) {
    update || MarkerName(whole) !in refs
  }

  // Whether bringing an app's image in runs its install script.
  predicate Builds(refs: map<Marker, RefText>, app: App, rebuild: bool) {
    app.install && (rebuild || MarkerName(LOCAL_PREFIX + app.name) !in refs)
  }

  // ---- When things work ----

  // The layers of a manifest that are not in the store, in its order.
  function Lacking(layers: seq<Digest>, disk: Disk): (r: seq<Digest>)
    ensures forall l :: l in r <==> l in layers && l !in disk.layers
  {
    if layers == [] then []
    else
      var last := layers[|layers| - 1];
      Lacking(layers[..|layers| - 1], disk) + if last in disk.layers then [] else [last]
  }

  predicate AllFetched(pending: seq<Digest>, sizes: map<Digest, nat>, disk: Disk, events: seq<Event>) {
    Sized(pending, sizes) &&
    var g := Run(Fresh(pending, disk), pending, sizes, events);
    forall i :: 0 <= i < |pending| ==> g.phases[i].Done?
  }

  // An image arrives exactly when the registry knows it, every digest is one, the config is had and every layer comes
  // through.
  predicate FetchWorks(disk: Disk, answer: Option<Answer>, events: seq<Event>) {
    answer.Some? &&
    var m := answer.value.manifest;
    && ValidDigest(answer.value.digest) && ValidDigest(m.config) && (forall l :: l in m.layers ==> ValidDigest(l))
    && (answer.value.config.Some? || m.config in disk.blobs || m.config == answer.value.digest)
    && AllFetched(Lacking(m.layers, disk), answer.value.archives, disk, events)
  }

  predicate Reads(blobs: map<Digest, Blob>, d: Digest) {
    d in blobs && blobs[d].Data?
  }

  // An app's image is built exactly when its base image is recorded and reads, config included, and the script works.
  predicate BuildWorks(disk: Disk, app: App, script: Script) {
    && app.whole.Some? && MarkerName(app.whole.value) in disk.refs
    && var base := ManifestOf(disk, disk.refs[MarkerName(app.whole.value)]);
    && base.Some? && Reads(disk.blobs, base.value.config) && script.succeeds
  }

  // The same when the base image is fetched first: what the registry sends is what there is to build on.
  predicate BuildWillWork(w: World, app: App, update: bool, answer: Option<Answer>, script: Script) {
    if app.pull && app.whole.Some? && Contacts(w.disk.refs, app.whole.value, update) then
      answer.Some? && Reads(w.truth.docs + News(answer.value).docs, answer.value.manifest.config) && script.succeeds
    else BuildWorks(w.disk, app, script)
  }

  // ---- Bringing an image in ----

  // A registry asked for an image, and what arrived.
  datatype Contact = Contact(image: string, arrived: Option<Answer>)

  // What `ensure` comes to: whether it works, the refs it leaves, and whom it asked.
  datatype Ensured = Ensured(ok: bool, refs: map<Marker, RefText>, contact: Option<Contact>)

  // An image already recorded is only looked up again for an update.
  function Fetched(w: World, whole: Option<string>, update: bool, answer: Option<Answer>, events: seq<Event>): Ensured {
    if whole.None? then Ensured(false, w.disk.refs, None)
    else if !Contacts(w.disk.refs, whole.value, update) then Ensured(true, w.disk.refs, None)
    else if FetchWorks(w.disk, answer, events) then
      Ensured(true, w.disk.refs[MarkerName(whole.value) := Names(answer.value.digest)], Some(Contact(whole.value, answer)))
    else Ensured(false, w.disk.refs, Some(Contact(whole.value, None)))
  }

  // What an install script finds, its base image fetched first if it may be.
  function Based(w: World, app: App, update: bool, answer: Option<Answer>, events: seq<Event>): Ensured {
    if app.pull then Fetched(w, app.whole, update, answer, events) else Ensured(true, w.disk.refs, None)
  }

  function EnsureApp(w: World, app: App, update: bool, rebuild: bool, answer: Option<Answer>, events: seq<Event>,
                     id: string, script: Script): Ensured
  {
    var base := Based(w, app, update, answer, events);
    if !app.install then base
    else if !Builds(w.disk.refs, app, rebuild) then Ensured(true, w.disk.refs, None)
    else if !base.ok then base
    else if BuildWillWork(w, app, update, answer, script) then
      base.(refs := base.refs[MarkerName(LOCAL_PREFIX + app.name) := Names(BuildDigest(id))])
    else base.(ok := false)
  }

  // App names and references are what the config and the reference grammar let through.
  predicate WellNamed(app: App) {
    ValidAppName(app.name) && (app.whole.Some? ==> FullReference(app.whole.value))
  }

  // The ref of an image names what the registry sent, and the store holds all of it.
  predicate Shows(disk: Disk, image: string, answer: Answer) {
    && MarkerName(image) in disk.refs && disk.refs[MarkerName(image)] == Names(answer.digest)
    && Holds(disk, answer)
  }

  predicate Holds(disk: Disk, answer: Answer) {
    ManifestOf(disk, Names(answer.digest)) == Some(answer.manifest) && Held(disk, answer.manifest)
  }

  // What no fetch or build takes away, however it ends: layers, and blobs that were in good order.
  predicate Grown(before: Disk, after: Disk) {
    && (forall d :: d in before.blobs ==>
          d in after.blobs && (before.blobs[d] != Damaged ==> after.blobs[d] == before.blobs[d]))
    && (forall d :: d in before.layers ==> d in after.layers && after.layers[d] == before.layers[d])
  }

  // The image an app's build left: its base image with the script's layer on top.
  predicate BuiltOn(disk: Disk, base: map<Marker, RefText>, app: App, id: string, script: Script) {
    && script.succeeds && app.whole.Some? && MarkerName(app.whole.value) in base
    && var manifest := ManifestOf(disk, base[MarkerName(app.whole.value)]);
    && manifest.Some?
    && ManifestOf(disk, Names(BuildDigest(id)))
       == Some(manifest.value.(layers := manifest.value.layers + [BuildDigest(id)]))
    && Held(disk, manifest.value)
    && BuildDigest(id) in disk.layers && disk.layers[BuildDigest(id)] == Whole(script.writes)
  }
}
