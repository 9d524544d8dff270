/** What a garbage collection and a clean leave behind, as functions of the disk they start from. */
module StoreClean {
  import opened Wrappers
  import opened StoreNames
  import opened StoreModel

  ghost function Swept(disk: Disk): Disk {
    Disk(
      disk.refs,
      map d | d in disk.blobs && BlobLive(disk, d) :: disk.blobs[d],
      map d | d in disk.layers && LayerLive(disk, d) :: disk.layers[d],
      map[],
      map[])
  }

  ghost function Collected(disk: Disk): Disk {
    if Readable(disk) then Swept(disk) else disk
  }

  // A collection in plain terms. When every ref that is not blank leads to a manifest, what stays is what they name and
  // what their manifests list, and no staging entry.
  lemma CollectedInPlainTerms(disk: Disk)
    requires forall k :: k in disk.refs && !disk.refs[k].Blank? ==>
               disk.refs[k].Names? && disk.refs[k].digest in disk.blobs && disk.blobs[disk.refs[k].digest].Doc?
    ensures var after := Collected(disk);
      && after.refs == disk.refs && after.stages == map[] && after.downloads == map[]
      && (forall d :: d in after.blobs <==>
            d in disk.blobs &&
            exists k :: k in disk.refs && disk.refs[k].Names? &&
                        (disk.refs[k].digest == d || disk.blobs[disk.refs[k].digest].manifest.config == d))
      && (forall d :: d in after.blobs ==> after.blobs[d] == disk.blobs[d])
      && (forall d :: d in after.layers <==>
            d in disk.layers &&
            exists k :: k in disk.refs && disk.refs[k].Names? &&
                        d in disk.blobs[disk.refs[k].digest].manifest.layers)
      && (forall d :: d in after.layers ==> after.layers[d] == disk.layers[d])
  {
    assert Readable(disk);
  }

  // ---- Reading an image ----

  // What a run needs: the layers and what is in them, and the config.
  datatype Image = Image(layers: seq<Digest>, trees: map<Digest, Tree>, config: nat)

  function TreesOf(disk: Disk, layers: seq<Digest>): map<Digest, Tree> {
    map l | l in layers && l in disk.layers :: disk.layers[l]
  }

  function ReadImage(disk: Disk, key: string): Result<Image> {
    var marker := MarkerName(key);
    if marker !in disk.refs then Err
    else
      match ManifestOf(disk, disk.refs[marker])
      case None => Err
      case Some(m) =>
        if m.config in disk.blobs && disk.blobs[m.config].Data?
        then Ok(Image(m.layers, TreesOf(disk, m.layers), disk.blobs[m.config].content)) else Err
  }

  // The image an app recorded in the store resolves to; nothing is fetched for one that has a ref.
  function Resolve(disk: Disk, app: App): Result<Image> {
    match ImageKey(app)
    case None => Err
    case Some(key) => ReadImage(disk, key)
  }

  // What it takes to resolve, in plain terms: an app with an install script goes by its own image, any other by the one it
  // names; the ref has to lead to a manifest, and that to a config.
  lemma ResolvesInPlainTerms(disk: Disk, app: App)
    ensures Resolve(disk, app) ==
            if app.install then ReadImage(disk, "localhost/climate/" + app.name)
            else if app.whole.Some? then ReadImage(disk, app.whole.value) else Err
  {
  }

  lemma ReadsInPlainTerms(disk: Disk, key: string)
    ensures ReadImage(disk, key).Ok? <==>
            && MarkerName(key) in disk.refs && disk.refs[MarkerName(key)].Names?
            && var d := disk.refs[MarkerName(key)].digest;
            && d in disk.blobs && disk.blobs[d].Doc?
            && disk.blobs[d].manifest.config in disk.blobs && disk.blobs[disk.blobs[d].manifest.config].Data?
    ensures ReadImage(disk, key).Ok? ==>
            var (image, m) := (ReadImage(disk, key).value, disk.blobs[disk.refs[MarkerName(key)].digest].manifest);
            && image.layers == m.layers && disk.blobs[m.config] == Data(image.config)
            && (forall l :: l in image.trees <==> l in m.layers && l in disk.layers)
            && forall l :: l in image.trees ==> image.trees[l] == disk.layers[l]
  {
  }

  // Whatever has happened to the store, an image that can be read at all has every layer it names, fully unpacked,
  // and the config its true manifest names.
  lemma ReadImagesAreWhole(w: World, key: string)
    requires Inv(w) && ReadImage(w.disk, key).Ok?
    ensures var image := ReadImage(w.disk, key).value;
            var d := w.disk.refs[MarkerName(key)].digest;
      && TrueDoc(w.truth, d)
      && image.layers == w.truth.docs[d].manifest.layers
      && (forall l :: l in image.layers ==>
            l in image.trees && l in w.truth.sizes && image.trees[l] == Whole(w.truth.sizes[l]))
      && w.truth.docs[d].manifest.config in w.truth.docs
      && w.truth.docs[w.truth.docs[d].manifest.config] == Data(image.config)
  {
    ReadManifestsAreTrue(w, MarkerName(key));
  }

  // What each ref leads to is kept, so what is in use is the same before and after.
  lemma CollectingKeepsManifests(disk: Disk, k: Marker)
    requires k in disk.refs
    ensures ManifestOf(Collected(disk), disk.refs[k]) == ManifestOf(disk, disk.refs[k])
  {
    if Readable(disk) && disk.refs[k].Names? && disk.refs[k].digest in disk.blobs {
      assert BlobLive(disk, disk.refs[k].digest);
    }
  }

  lemma CollectingKeepsImages(disk: Disk, key: string)
    ensures ReadImage(Collected(disk), key) == ReadImage(disk, key)
  {
    var after := Collected(disk);
    var k := MarkerName(key);
    if Readable(disk) && k in disk.refs {
      CollectingKeepsManifests(disk, k);
      match ManifestOf(disk, disk.refs[k])
      case None =>
      case Some(m) =>
        assert BlobLive(disk, m.config);
        assert forall l :: l in m.layers ==> LayerLive(disk, l);
        assert TreesOf(after, m.layers) == TreesOf(disk, m.layers);
    }
  }

  lemma CollectingTwiceIsOnce(disk: Disk)
    ensures Collected(Collected(disk)) == Collected(disk)
  {
    var after := Collected(disk);
    if Readable(disk) {
      forall k | k in disk.refs ensures ManifestOf(after, after.refs[k]) == ManifestOf(disk, disk.refs[k]) {
        CollectingKeepsManifests(disk, k);
      }
      forall d | d in after.blobs ensures BlobLive(after, d) {
        var k :| k in disk.refs && disk.refs[k].Names? &&
                 (disk.refs[k].digest == d ||
                  (ManifestOf(disk, disk.refs[k]).Some? && ManifestOf(disk, disk.refs[k]).value.config == d));
        assert ManifestOf(after, after.refs[k]) == ManifestOf(disk, disk.refs[k]);
      }
      forall d | d in after.layers ensures LayerLive(after, d) {
        var k :| k in disk.refs && ManifestOf(disk, disk.refs[k]).Some? &&
                 d in ManifestOf(disk, disk.refs[k]).value.layers;
        assert ManifestOf(after, after.refs[k]) == ManifestOf(disk, disk.refs[k]);
      }
      assert Swept(after).blobs == after.blobs;
      assert Swept(after).layers == after.layers;
    }
  }

  // ---- Clean ----

  // The markers one app keeps: its own image's, and its base image's.
  function MarkersOf(app: App): set<Marker> {
    if !app.loads then {}
    else
      (if ImageKey(app).Some? then {MarkerName(ImageKey(app).value)} else {}) +
      (if app.whole.Some? then {MarkerName(app.whole.value)} else {})
  }

  predicate MarkerKept(apps: seq<App>, k: Marker) {
    exists i :: 0 <= i < |apps| && k in MarkersOf(apps[i])
  }

  function OrphansDropped(disk: Disk, apps: seq<App>): Disk {
    disk.(refs := map k | k in disk.refs && MarkerKept(apps, k) :: disk.refs[k])
  }

  ghost function Cleaned(disk: Disk, apps: seq<App>): Disk {
    Collected(OrphansDropped(disk, apps))
  }

  lemma DroppingKeepsImages(disk: Disk, apps: seq<App>, key: string)
    requires MarkerKept(apps, MarkerName(key))
    ensures ReadImage(OrphansDropped(disk, apps), key) == ReadImage(disk, key)
  {
    var after := OrphansDropped(disk, apps);
    if MarkerName(key) in disk.refs {
      match ManifestOf(disk, disk.refs[MarkerName(key)])
      case None =>
      case Some(m) => assert TreesOf(after, m.layers) == TreesOf(disk, m.layers);
    }
  }

  // Every app that loads resolves to the very same layers and config as before, an installing app's base image can
  // still be built on, and no ref is left that no app asks for.
  lemma CleanKeepsEveryApp(disk: Disk, apps: seq<App>, i: nat)
    requires i < |apps| && apps[i].loads
    ensures var after := Cleaned(disk, apps);
      && Resolve(after, apps[i]) == Resolve(disk, apps[i])
      && (apps[i].whole.Some? ==> ReadImage(after, apps[i].whole.value) == ReadImage(disk, apps[i].whole.value))
      && (forall k :: k in after.refs <==> k in disk.refs && MarkerKept(apps, k))
  {
    var app, dropped := apps[i], OrphansDropped(disk, apps);
    if ImageKey(app).Some? {
      var key := ImageKey(app).value;
      assert MarkerName(key) in MarkersOf(apps[i]);
      DroppingKeepsImages(disk, apps, key);
      CollectingKeepsImages(dropped, key);
    }
    if app.whole.Some? {
      var base := app.whole.value;
      assert MarkerName(base) in MarkersOf(apps[i]);
      DroppingKeepsImages(disk, apps, base);
      CollectingKeepsImages(dropped, base);
    }
  }

  // From a store the commands left closed, clean also keeps it closed: what the surviving refs truly need is still
  // there, readable or not.
  lemma CleanKeepsClosure(w: World, apps: seq<App>)
    requires Inv(w)
    ensures Inv(World(Cleaned(w.disk, apps), w.truth))
  {
    var dropped := OrphansDropped(w.disk, apps);
    var after := Cleaned(w.disk, apps);
    if Readable(dropped) {
      forall k | k in after.refs && after.refs[k].Names?
        ensures after.refs[k].digest in after.blobs
        ensures Held(after, w.truth.docs[after.refs[k].digest].manifest)
      {
        var d := after.refs[k].digest;
        ReadManifestsAreTrue(w, k);
        var m := w.truth.docs[d].manifest;
        assert ManifestOf(dropped, dropped.refs[k]).Some?;
        assert BlobLive(dropped, d);
        assert BlobLive(dropped, m.config);
        assert forall l :: l in m.layers ==> LayerLive(dropped, l);
      }
    }
  }
}
