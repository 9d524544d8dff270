/** The image store as a value, the file-system steps that change it, and the discipline every command keeps to.
    A crash leaves the disk as some prefix of the steps left it, so what holds after every prefix holds after a crash. */
module StoreModel {
  import opened Wrappers

  type Digest = string
  type Marker = string

  datatype Manifest = Manifest(config: Digest, layers: seq<Digest>)

  // A file under blobs/: a manifest, any other content, or what an interrupted write left (which parses as nothing).
  datatype Blob = Damaged | Doc(manifest: Manifest) | Data(content: nat)

  // A file under refs/: fs::write empties it first, so it can be found blank or cut short.
  datatype RefText = Blank | Partial | Names(digest: Digest)

  // The directories whose name starts with ".extract-": one per layer, and a build's work directory.
  datatype Stage = Upper(digest: Digest) | Work(digest: Digest)

  // An unpacked directory is the set of archive entries found in it.
  type Tree = set<nat>

  datatype Disk = Disk(
    refs: map<Marker, RefText>,
    blobs: map<Digest, Blob>,
    layers: map<Digest, Tree>,
    stages: map<Stage, Tree>,
    downloads: map<nat, Blob>)

  // What digests stand for. It only ever grows: content decides a registry digest, and a build's name is fresh.
  datatype Truth = Truth(docs: map<Digest, Blob>, sizes: map<Digest, nat>)

  datatype World = World(disk: Disk, truth: Truth)

  function Whole(size: nat): Tree {
    if size == 0 then {} else Whole(size - 1) + {size - 1}
  }

  // ---- Steps ----

  datatype Step =
    | Learn(news: Truth)
    | TearBlob(digest: Digest)
    | WriteBlob(digest: Digest, blob: Blob)
    | TearRef(marker: Marker, left: RefText)
    | WriteRef(marker: Marker, digest: Digest)
    | PutDownload(temp: nat, content: Blob)
    | DropDownload(temp: nat)
    | CommitBlob(temp: nat, digest: Digest)
    | ClearStage(stage: Stage)
    | OpenStage(stage: Stage)
    | Unpack(stage: Stage, entry: nat)
    | CommitLayer(digest: Digest)
    | DropRef(marker: Marker)
    | DropBlob(digest: Digest)
    | DropLayer(digest: Digest)

  function StageTree(disk: Disk, stage: Stage): Tree {
    if stage in disk.stages then disk.stages[stage] else {}
  }

  function ApplyDisk(disk: Disk, step: Step): Disk {
    match step
    case Learn(_) => disk
    case TearBlob(d) => disk.(blobs := disk.blobs[d := Damaged])
    case WriteBlob(d, b) => disk.(blobs := disk.blobs[d := b])
    case TearRef(k, left) => disk.(refs := disk.refs[k := left])
    case WriteRef(k, d) => disk.(refs := disk.refs[k := Names(d)])
    case PutDownload(t, b) => disk.(downloads := disk.downloads[t := b])
    case DropDownload(t) => disk.(downloads := disk.downloads - {t})
    case CommitBlob(t, d) =>
      if t in disk.downloads then
        disk.(blobs := disk.blobs[d := disk.downloads[t]], downloads := disk.downloads - {t})
      else disk
    case ClearStage(s) => disk.(stages := disk.stages - {s})
    case OpenStage(s) => disk.(stages := disk.stages[s := StageTree(disk, s)])
    case Unpack(s, e) => disk.(stages := disk.stages[s := StageTree(disk, s) + {e}])
    case CommitLayer(d) =>
      if Upper(d) in disk.stages then
        disk.(layers := disk.layers[d := disk.stages[Upper(d)]], stages := disk.stages - {Upper(d)})
      else disk
    case DropRef(k) => disk.(refs := disk.refs - {k})
    case DropBlob(d) => disk.(blobs := disk.blobs - {d})
    case DropLayer(d) => disk.(layers := disk.layers - {d})
  }

  function Apply(w: World, step: Step): World {
    World(ApplyDisk(w.disk, step),
          if step.Learn? then Truth(w.truth.docs + step.news.docs, w.truth.sizes + step.news.sizes) else w.truth)
  }

  // ---- What is in use ----

  // The manifest a ref leads to, when the file can be read and parsed.
  function ManifestOf(disk: Disk, text: RefText): Option<Manifest> {
    if text.Names? && text.digest in disk.blobs && disk.blobs[text.digest].Doc?
    then Some(disk.blobs[text.digest].manifest) else None
  }

  // A blank ref names nothing and is passed over; any other must lead to a manifest.
  ghost predicate Readable(disk: Disk) {
    forall k :: k in disk.refs && !disk.refs[k].Blank? ==> ManifestOf(disk, disk.refs[k]).Some?
  }

  ghost predicate BlobLive(disk: Disk, d: Digest) {
    exists k :: k in disk.refs && disk.refs[k].Names? &&
                (disk.refs[k].digest == d ||
                 (ManifestOf(disk, disk.refs[k]).Some? && ManifestOf(disk, disk.refs[k]).value.config == d))
  }

  ghost predicate LayerLive(disk: Disk, d: Digest) {
    exists k :: k in disk.refs && ManifestOf(disk, disk.refs[k]).Some? &&
                d in ManifestOf(disk, disk.refs[k]).value.layers
  }

  // ---- Discipline ----

  predicate Agrees(truth: Truth, news: Truth) {
    && (forall d :: d in news.docs ==> news.docs[d] != Damaged)
    && (forall d :: d in news.docs && d in truth.docs ==> news.docs[d] == truth.docs[d])
    && (forall d :: d in news.sizes && d in truth.sizes ==> news.sizes[d] == truth.sizes[d])
  }

  predicate TrueDoc(truth: Truth, d: Digest) {
    d in truth.docs && truth.docs[d].Doc?
  }

  // Everything a manifest points at is there.
  predicate Held(disk: Disk, m: Manifest) {
    m.config in disk.blobs && forall l :: l in m.layers ==> l in disk.layers
  }

  // When a step may be taken.
  ghost predicate Allowed(w: World, step: Step) {
    match step
    case Learn(news) => Agrees(w.truth, news)
    case TearBlob(d) => TrueDoc(w.truth, d)
    case WriteBlob(d, b) => d in w.truth.docs && w.truth.docs[d] == b
    case TearRef(_, left) => !left.Names?
    case WriteRef(_, d) => TrueDoc(w.truth, d) && d in w.disk.blobs && Held(w.disk, w.truth.docs[d].manifest)
    case CommitBlob(t, d) =>
      t in w.disk.downloads && d in w.truth.docs && w.truth.docs[d] == w.disk.downloads[t]
    case CommitLayer(d) =>
      && Upper(d) in w.disk.stages
      && d in w.truth.sizes && w.disk.stages[Upper(d)] == Whole(w.truth.sizes[d])
    case DropBlob(d) => Readable(w.disk) && !BlobLive(w.disk, d)
    case DropLayer(d) => Readable(w.disk) && !LayerLive(w.disk, d)
    case _ => true
  }

  // ---- Invariant ----

  // Manifests alone are written in place, so nothing else is ever found damaged.
  ghost predicate BlobsTrue(w: World) {
    forall d :: d in w.disk.blobs ==>
      d in w.truth.docs && (w.disk.blobs[d] == w.truth.docs[d] || (w.disk.blobs[d].Damaged? && w.truth.docs[d].Doc?))
  }

  ghost predicate LayersWhole(w: World) {
    forall d :: d in w.disk.layers ==> d in w.truth.sizes && w.disk.layers[d] == Whole(w.truth.sizes[d])
  }

  // Closure under the true manifest of what each ref names, whether or not the blob on disk is in good order.
  ghost predicate RefsClosed(w: World) {
    forall k :: k in w.disk.refs && w.disk.refs[k].Names? ==>
      && TrueDoc(w.truth, w.disk.refs[k].digest)
      && w.disk.refs[k].digest in w.disk.blobs
      && Held(w.disk, w.truth.docs[w.disk.refs[k].digest].manifest)
  }

  ghost predicate Inv(w: World) {
    && (forall d :: d in w.truth.docs ==> w.truth.docs[d] != Damaged)
    && BlobsTrue(w) && LayersWhole(w) && RefsClosed(w)
  }

  const EMPTY_DISK := Disk(map[], map[], map[], map[], map[])
  const EMPTY_WORLD := World(EMPTY_DISK, Truth(map[], map[]))

  // A readable manifest is the true one, so reading keeps exactly what the true manifests need.
  lemma ReadManifestsAreTrue(w: World, k: Marker)
    requires Inv(w) && k in w.disk.refs && ManifestOf(w.disk, w.disk.refs[k]).Some?
    ensures ManifestOf(w.disk, w.disk.refs[k]).value == w.truth.docs[w.disk.refs[k].digest].manifest
  {
  }

  lemma StepKeepsInv(w: World, step: Step)
    requires Inv(w) && Allowed(w, step)
    ensures Inv(Apply(w, step))
  {
    var w' := Apply(w, step);
    match step {
      case DropBlob(d) =>
        forall k | k in w'.disk.refs && w'.disk.refs[k].Names?
          ensures w.disk.refs[k].digest in w'.disk.blobs && Held(w'.disk, w.truth.docs[w.disk.refs[k].digest].manifest)
        {
          ReadManifestsAreTrue(w, k);
        }
      case DropLayer(d) =>
        forall k | k in w'.disk.refs && w'.disk.refs[k].Names?
          ensures Held(w'.disk, w.truth.docs[w.disk.refs[k].digest].manifest)
        {
          ReadManifestsAreTrue(w, k);
        }
      case _ =>
    }
  }

  // ---- Runs ----

  function Replay(origin: World, log: seq<Step>): World {
    if log == [] then origin else Apply(Replay(origin, log[..|log| - 1]), log[|log| - 1])
  }

  ghost predicate Legal(origin: World, log: seq<Step>) {
    log == [] ||
    (Legal(origin, log[..|log| - 1]) && Allowed(Replay(origin, log[..|log| - 1]), log[|log| - 1]))
  }

  lemma Append(origin: World, log: seq<Step>, step: Step)
    requires Legal(origin, log) && Allowed(Replay(origin, log), step)
    ensures Legal(origin, log + [step])
    ensures Replay(origin, log + [step]) == Apply(Replay(origin, log), step)
  {
    assert (log + [step])[..|log|] == log;
  }

  lemma {:induction false} LegalPrefix(origin: World, log: seq<Step>, n: nat)
    requires Legal(origin, log) && n <= |log|
    ensures Legal(origin, log[..n])
  {
    if n < |log| {
      assert log[..|log| - 1][..n] == log[..n];
      LegalPrefix(origin, log[..|log| - 1], n);
    } else {
      assert log[..n] == log;
    }
  }

  // A run can be taken up where it was left.
  lemma {:induction false} RunsOn(origin: World, a: seq<Step>, b: seq<Step>)
    requires Legal(origin, a + b)
    ensures Legal(Replay(origin, a), b) && Replay(origin, a + b) == Replay(Replay(origin, a), b)
  {
    if b == [] {
      assert a + b == a;
    } else {
      assert (a + b)[..|a + b| - 1] == a + b[..|b| - 1];
      RunsOn(origin, a, b[..|b| - 1]);
    }
  }

  lemma {:induction false} LegalRunKeepsInv(origin: World, log: seq<Step>)
    requires Inv(origin) && Legal(origin, log)
    ensures Inv(Replay(origin, log))
  {
    if log != [] {
      LegalRunKeepsInv(origin, log[..|log| - 1]);
      StepKeepsInv(Replay(origin, log[..|log| - 1]), log[|log| - 1]);
    }
  }

  // The store as a later command finds it, wherever the steps were cut off: every ref that was written in full names
  // a digest whose true manifest has its config and all its layers present, and every layer is fully unpacked.
  ghost predicate Closed(w: World) {
    forall k :: k in w.disk.refs && w.disk.refs[k].Names? ==>
      var d := w.disk.refs[k].digest;
      && TrueDoc(w.truth, d)
      && d in w.disk.blobs && (w.disk.blobs[d] == Damaged || w.disk.blobs[d] == w.truth.docs[d])
      && var m := w.truth.docs[d].manifest;
      && m.config in w.disk.blobs && (w.disk.blobs[m.config] == Damaged ==> TrueDoc(w.truth, m.config))
      && forall l :: l in m.layers ==>
           l in w.disk.layers && l in w.truth.sizes && w.disk.layers[l] == Whole(w.truth.sizes[l])
  }

  lemma CrashSafeClosure(origin: World, log: seq<Step>, cut: nat)
    requires Inv(origin) && Legal(origin, log) && cut <= |log|
    ensures Closed(Replay(origin, log[..cut]))
  {
    LegalPrefix(origin, log, cut);
    LegalRunKeepsInv(origin, log[..cut]);
  }

  // What has to happen before a ref leads anywhere else than it does now.
  predicate Rewrites(step: Step, k: Marker, text: RefText) {
    match step
    case TearRef(m, _) => m == k
    case WriteRef(m, _) => m == k
    case DropRef(m) => m == k
    case WriteBlob(d, _) => text == Names(d)
    case CommitBlob(_, d) => text == Names(d)
    case _ => false
  }

  predicate LeadsNowhere(disk: Disk, k: Marker, text: RefText) {
    k in disk.refs && disk.refs[k] == text && !text.Blank? && ManifestOf(disk, text).None?
  }

  lemma DamageStopsStep(w: World, step: Step, k: Marker, text: RefText)
    requires LeadsNowhere(w.disk, k, text)
    requires Allowed(w, step) && !Rewrites(step, k, text)
    ensures LeadsNowhere(Apply(w, step).disk, k, text)
    ensures w.disk.blobs.Keys <= Apply(w, step).disk.blobs.Keys
    ensures w.disk.layers.Keys <= Apply(w, step).disk.layers.Keys
  {
    assert !Readable(w.disk);
  }

  // From a state where some ref does not lead to a readable manifest, no run of the commands deletes a blob
  // or a layer until that manifest or that ref is rewritten.
  lemma {:induction false} DamageStopsDeletion(w: World, log: seq<Step>, k: Marker, text: RefText)
    requires Legal(w, log) && LeadsNowhere(w.disk, k, text)
    requires forall i :: 0 <= i < |log| ==> !Rewrites(log[i], k, text)
    ensures LeadsNowhere(Replay(w, log).disk, k, text)
    ensures w.disk.blobs.Keys <= Replay(w, log).disk.blobs.Keys
    ensures w.disk.layers.Keys <= Replay(w, log).disk.layers.Keys
  {
    if log != [] {
      var before := log[..|log| - 1];
      DamageStopsDeletion(w, before, k, text);
      DamageStopsStep(Replay(w, before), log[|log| - 1], k, text);
    }
  }

  // Writing the true manifest over a damaged one is all it takes to have the whole image back.
  lemma RewriteRepairs(w: World, k: Marker)
    requires Inv(w) && k in w.disk.refs && w.disk.refs[k].Names?
    ensures var d := w.disk.refs[k].digest;
            && Allowed(w, WriteBlob(d, w.truth.docs[d]))
            && var w' := Apply(w, WriteBlob(d, w.truth.docs[d]));
            && Inv(w')
            && ManifestOf(w'.disk, w'.disk.refs[k]) == Some(w.truth.docs[d].manifest)
            && Held(w'.disk, w.truth.docs[d].manifest)
  {
    var d := w.disk.refs[k].digest;
    StepKeepsInv(w, WriteBlob(d, w.truth.docs[d]));
  }
}
