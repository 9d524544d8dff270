/** The names the store files things under: digests as paths, image keys as marker files. */
module StoreNames {
  import opened Wrappers

  // An app definition, as far as the store is concerned. `whole` is the image
  // reference as parsed and written out in full, when it parses.
  datatype App = App(name: string, loads: bool, pull: bool, install: bool, reference: string, whole: Option<string>)

  predicate IsAlphanumeric(c: char) {
    '0' <= c <= '9' || 'A' <= c <= 'Z' || 'a' <= c <= 'z'
  }

  predicate IsClean(s: string) {
    s != "" && forall i :: 0 <= i < |s| ==> IsAlphanumeric(s[i])
  }

  // The text before and after the first occurrence of a character.
  function SplitOnce(s: string, c: char): (r: Option<(string, string)>)
    ensures r.None? <==> c !in s
    ensures r.Some? ==> s == r.value.0 + [c] + r.value.1 && c !in r.value.0
  {
    if s == "" then None
    else if s[0] == c then Some(("", s[1..]))
    else
      match SplitOnce(s[1..], c)
      case None => None
      case Some((before, after)) => Some(([s[0]] + before, after))
  }

  function DigestPath(digest: string): Result<(string, string)> {
    match SplitOnce(digest, ':')
    case None => Err
    case Some((algo, hex)) => if IsClean(algo) && IsClean(hex) then Ok((algo, hex)) else Err
  }

  predicate ValidDigest(digest: string) {
    DigestPath(digest).Ok?
  }

  // What GC makes of a directory entry's path.
  function DigestOf(path: (string, string)): string {
    path.0 + ":" + path.1
  }

  predicate StartsWith(s: string, prefix: string) {
    |prefix| <= |s| && s[..|prefix|] == prefix
  }

  // Accepted digests and clean paths are the same things written two ways, so GC names every file as it was named when
  // it was stored, and takes no finished layer for a staging directory.
  lemma DigestAndPathUndoEachOther(digest: string, algo: string, hex: string)
    ensures DigestPath(digest) == Ok((algo, hex)) <==>
            && algo != "" && hex != "" && digest == DigestOf((algo, hex)) && digest == algo + ":" + hex
            && forall c :: c in algo + hex ==> '0' <= c <= '9' || 'A' <= c <= 'Z' || 'a' <= c <= 'z'
    ensures DigestPath(digest) == Ok((algo, hex)) ==> IsClean(algo) && IsClean(hex)
    ensures DigestPath(digest) == Ok((algo, hex)) ==>
            !StartsWith(hex, ".extract-") && hex != ".." && '/' !in algo + hex
  {
    CleanInPlainTerms(algo, hex);
    if IsClean(algo) && IsClean(hex) && digest == DigestOf((algo, hex)) {
      assert digest[|algo|] == ':';
      var (before, after) := SplitOnce(digest, ':').value;
      SplitIsUnique(before, after, algo, hex);
    }
    if DigestPath(digest) == Ok((algo, hex)) {
      assert IsAlphanumeric(hex[0]);
    }
  }

  lemma CleanInPlainTerms(a: string, b: string)
    ensures IsClean(a) && IsClean(b) <==>
            a != "" && b != "" && forall c :: c in a + b ==> '0' <= c <= '9' || 'A' <= c <= 'Z' || 'a' <= c <= 'z'
  {
    assert forall i :: 0 <= i < |a| ==> a[i] in a + b;
    assert forall i :: 0 <= i < |b| ==> b[i] in a + b;
  }

  lemma SplitIsUnique(a: string, b: string, x: string, y: string)
    requires ':' !in a && ':' !in x && a + ":" + b == x + ":" + y
    ensures a == x && b == y
  {
    var s, t := a + ":" + b, x + ":" + y;
    assert s[|a|] == ':' && t[|x|] == ':';
    assert forall i :: 0 <= i < |a| ==> s[i] == a[i];
    assert forall i :: 0 <= i < |x| ==> t[i] == x[i];
    assert |a| == |x|;
    assert a == s[..|a|] && x == t[..|x|];
    assert b == s[|a| + 1..] && y == t[|x| + 1..];
  }

  // ---- Staging ----

  // Where a layer is unpacked, or a build's script writes, and where a build keeps its work directory: beside the layer.
  function UpperPath(digest: string): (string, string)
    requires ValidDigest(digest)
  {
    var (algo, hex) := DigestPath(digest).value;
    (algo, ".extract-" + hex)
  }

  function WorkPath(digest: string): (string, string)
    requires ValidDigest(digest)
  {
    var (algo, hex) := DigestPath(digest).value;
    (algo, ".extract-" + hex + "-work")
  }

  // No two layers or builds share a staging directory, no work directory is anyone's upper one, and none of them is
  // where a finished layer stands.
  lemma StagingNeverCollides(a: string, b: string)
    requires ValidDigest(a) && ValidDigest(b)
    ensures UpperPath(a) == UpperPath(b) <==> a == b
    ensures WorkPath(a) == WorkPath(b) <==> a == b
    ensures UpperPath(a) != WorkPath(b)
    ensures UpperPath(a) != DigestPath(b).value && WorkPath(a) != DigestPath(b).value
    ensures StartsWith(UpperPath(a).1, ".extract-") && StartsWith(WorkPath(a).1, ".extract-")
  {
    hide DigestPath;
    var ((algo, hex), (algo', hex')) := (DigestPath(a).value, DigestPath(b).value);
    DigestAndPathUndoEachOther(a, algo, hex);
    DigestAndPathUndoEachOther(b, algo', hex');
    SamePrefixSameRest(".extract-", hex, hex');
    SamePrefixSameRest(".extract-", hex, hex' + "-work");
    SameSuffixSameStart(hex, hex', "-work");
    assert ".extract-" + hex + "-work" == ".extract-" + (hex + "-work");
    assert ".extract-" + hex' + "-work" == ".extract-" + (hex' + "-work");
    SamePrefixSameRest(".extract-", hex + "-work", hex' + "-work");
    assert (hex' + "-work")[|hex'|] == '-';
    assert (".extract-" + hex)[0] == '.' && (".extract-" + hex + "-work")[0] == '.';
  }

  lemma SamePrefixSameRest(prefix: string, a: string, b: string)
    ensures prefix + a == prefix + b <==> a == b
  {
    assert (prefix + a)[|prefix|..] == a && (prefix + b)[|prefix|..] == b;
  }

  lemma SameSuffixSameStart(a: string, b: string, suffix: string)
    ensures a + suffix == b + suffix <==> a == b
  {
    if a + suffix == b + suffix {
      assert |a| == |b|;
      assert a == (a + suffix)[..|a|] && b == (b + suffix)[..|b|];
    }
  }

  // ---- Markers ----

  function MarkerName(reference: string): (r: string)
    ensures |r| == |reference|
    ensures forall i :: 0 <= i < |r| ==> r[i] == if reference[i] == '/' then '+' else reference[i]
  {
    seq(|reference|, i requires 0 <= i < |reference| => if reference[i] == '/' then '+' else reference[i])
  }

  const LOCAL_PREFIX := "localhost/climate/"

  function ImageKey(app: App): Option<string> {
    if app.install then Some(LOCAL_PREFIX + app.name) else app.whole
  }

  predicate ValidAppName(name: string) {
    name != "" && name[0] != '.' &&
    forall i :: 0 <= i < |name| ==> IsAlphanumeric(name[i]) || name[i] in "+._-"
  }

  // What the reference grammar gives: a full reference carries a tag or a digest. A '+' could stand in the algorithm of
  // a digest at most, which comes after an '@', and a '/' only before it.
  predicate FullReference(reference: string) {
    ':' in reference &&
    forall i :: 0 <= i < |reference| ==>
      (reference[i] == '+' ==> '@' in reference[..i]) && (reference[i] == '/' ==> '@' !in reference[..i])
  }

  predicate IsImageKey(key: string) {
    FullReference(key) || (StartsWith(key, LOCAL_PREFIX) && ValidAppName(key[|LOCAL_PREFIX|..]))
  }

  // No two image keys share a marker file, although an app name may itself contain '+'.
  lemma MarkersNeverCollide(a: string, b: string)
    requires IsImageKey(a) && IsImageKey(b)
    ensures MarkerName(a) == MarkerName(b) <==> a == b
  {
    hide FullReference, IsImageKey, MarkerName;
    if MarkerName(a) == MarkerName(b) {
      assert |a| == |b|;
      forall i | 0 <= i < |a| ensures a[i] == b[i] {
        SameMarkerSameCharacter(a, b, i);
      }
    }
  }

  lemma SameMarkerSameCharacter(a: string, b: string, i: nat)
    requires IsImageKey(a) && IsImageKey(b) && MarkerName(a) == MarkerName(b) && i < |a| == |b|
    ensures a[i] == b[i]
  {
    hide FullReference, IsImageKey, MarkerName;
    var m := MarkerName(a);
    assert m[i] == if a[i] == '/' then '+' else a[i];
    assert m[i] == if b[i] == '/' then '+' else b[i];
    if FullReference(a) && FullReference(b) {
      SlashIsNoPlus(a, b, i);
      SlashIsNoPlus(b, a, i);
    } else if FullReference(a) {
      ReferenceIsNoLocalKey(a, b);
    } else if FullReference(b) {
      ReferenceIsNoLocalKey(b, a);
    } else {
      KeyShape(a, i);
      KeyShape(b, i);
    }
  }

  // Where a '/' can stand in the key of a built image.
  lemma KeyShape(key: string, i: nat)
    requires IsImageKey(key) && i < |key|
    ensures !FullReference(key) ==> if i < |LOCAL_PREFIX| then key[i] == LOCAL_PREFIX[i] else key[i] != '/'
  {
    if !FullReference(key) {
      if i < |LOCAL_PREFIX| {
        assert key[i] == key[..|LOCAL_PREFIX|][i];
      } else {
        assert key[i] == key[|LOCAL_PREFIX|..][i - |LOCAL_PREFIX|];
      }
    }
  }

  // Two references with one marker have their '@' in the same place, and so their slashes as well.
  lemma SlashIsNoPlus(a: string, b: string, i: nat)
    requires FullReference(a) && FullReference(b) && MarkerName(a) == MarkerName(b) && i < |a| == |b|
    ensures !(a[i] == '/' && b[i] == '+')
  {
    if '@' in b[..i] {
      SameAtSigns(a, b, i);
    }
  }

  lemma SameAtSigns(a: string, b: string, i: nat)
    requires MarkerName(a) == MarkerName(b) && i < |a| == |b| && '@' in b[..i]
    ensures '@' in a[..i]
  {
    var m := MarkerName(a);
    assert m == MarkerName(b);
    var j :| 0 <= j < i && b[j] == '@';
    assert m[j] == '@';
    assert a[..i][j] == '@';
  }

  // A reference's marker keeps its ':', which no marker of a built image has.
  lemma ReferenceIsNoLocalKey(reference: string, local: string)
    requires FullReference(reference) && IsImageKey(local) && !FullReference(local)
    ensures MarkerName(reference) != MarkerName(local)
  {
    var i :| 0 <= i < |reference| && reference[i] == ':';
    if i < |local| {
      KeyShape(local, i);
      if i >= |LOCAL_PREFIX| {
        var rest := local[|LOCAL_PREFIX|..];
        assert local[i] == rest[i - |LOCAL_PREFIX|];
      }
      assert local[i] != ':';
      assert MarkerName(reference)[i] == ':';
      assert MarkerName(local)[i] != ':';
    }
  }

  // The keys apps are recorded under are image keys.
  lemma AppKeysAreImageKeys(app: App)
    requires ValidAppName(app.name)
    requires app.whole.Some? ==> FullReference(app.whole.value)
    ensures ImageKey(app).Some? ==> IsImageKey(ImageKey(app).value)
  {
    assert (LOCAL_PREFIX + app.name)[|LOCAL_PREFIX|..] == app.name;
  }
}
