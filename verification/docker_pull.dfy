/**
  The decision rules of the image pull: which registry responses are fetched,
  how a multi-platform index is narrowed to one manifest, which media types
  are accepted, where each layer is written, and the order in which layers
  are downloaded and unpacked. HTTP, the token service and tar extraction are
  abstract: a `Registry` value says what each request returns.
 */
module DockerPull {
  import opened Common
  import opened PyText

  const DOCKER_MANIFEST_LIST := "application/vnd.docker.distribution.manifest.list.v2+json"
  const OCI_INDEX := "application/vnd.oci.image.index.v1+json"
  const DOCKER_MANIFEST := "application/vnd.docker.distribution.manifest.v2+json"
  const OCI_MANIFEST := "application/vnd.oci.image.manifest.v1+json"

  /** Prefix stripped from a layer digest to name its archive. */
  const DIGEST_PREFIX := "sha256:"

  /** `response.iter_content(chunk_size=8192)` */
  const CHUNK_SIZE := 8192

  /** The `platform` object of a manifest-list entry; absent keys are None. */
  datatype Platform = Platform(os: Option<string>, architecture: Option<string>)

  /** An entry of `manifests` or of `layers`: an optional platform and a digest. */
  datatype Descriptor = Descriptor(platform: Option<Platform>, digest: Option<string>)

  /** The parts of a manifest document the pull reads. */
  datatype ManifestDoc = ManifestDoc(
    mediaType: Option<string>,
    manifests: Option<seq<Descriptor>>,
    layers: Option<seq<Descriptor>>)

  /** A manifest response: HTTP status, `Content-Type` header, decoded JSON body. */
  datatype Response = Response(status: int, contentType: Option<string>, body: ManifestDoc)

  /** A blob response: HTTP status and the bytes of its body. */
  datatype Blob = Blob(status: int, content: seq<byte>)

  /**
    What the outside world answers: whether a token is granted, the manifest
    response for each reference, the blob response for each digest, and
    whether a layer archive with given bytes unpacks.
   */
  datatype Registry = Registry(
    tokenGranted: bool,
    manifestAt: string -> Response,
    blobAt: string -> Blob,
    unpacks: seq<byte> -> bool)

  datatype PullError =
    | AuthFailed                                  // raise_for_status on the token request
    | FetchFailed(status: int)                    // "Failed to fetch manifest"
    | DownloadFailed(status: int)                 // "Failed to download layer"
    | MissingKey(key: string)                     // KeyError
    | NoManifests                                 // IndexError on manifests[0]
    | UnsupportedMediaType(mediaType: Option<string>)
    | ExtractFailed(file: string)                 // tarfile error

  datatype Outcome = Done | Raised(error: PullError)

  /** The externally visible steps of a pull, in the order they happen. */
  datatype PullAction =
    | RequestToken(image: string)
    | FetchManifest(image: string, reference: string)
    | MakeDirs(path: string)
    | Download(digest: string, file: string, content: seq<byte>)
    | Extract(file: string, into: string)

  // ---------------------------------------------------------------- platform selection

  /** `manifest.get('platform', {}).get('os', '')` */
  function PlatformOs(d: Descriptor): string {
    match d.platform
    case None => ""
    case Some(p) => match p.os case None => "" case Some(s) => s
  }

  /** `manifest.get('platform', {}).get('architecture', '')` */
  function PlatformArch(d: Descriptor): string {
    match d.platform
    case None => ""
    case Some(p) => match p.architecture case None => "" case Some(s) => s
  }

  /** The entry's lower-cased os and architecture equal the (lower-cased) current ones. */
  predicate Matches(d: Descriptor, currentOs: string, currentArch: string) {
    Lower(PlatformOs(d)) == currentOs && Lower(PlatformArch(d)) == currentArch
  }

  /** Index of the first entry matching the current platform, in list order. */
  function FirstMatch(ms: seq<Descriptor>, currentOs: string, currentArch: string): (r: Option<nat>)
    ensures r.None? ==> forall i :: 0 <= i < |ms| ==> !Matches(ms[i], currentOs, currentArch)
    ensures r.Some? ==> r.value < |ms| && Matches(ms[r.value], currentOs, currentArch)
    ensures r.Some? ==> forall j :: 0 <= j < r.value ==> !Matches(ms[j], currentOs, currentArch)
  {
    if ms == [] then None
    else if Matches(ms[0], currentOs, currentArch) then Some(0)
    else match FirstMatch(ms[1..], currentOs, currentArch)
      case None => None
      case Some(k) => Some(k + 1)
  }

  /** `entry['digest']` */
  function DigestOf(d: Descriptor): (r: Result<string, PullError>)
    ensures r.Ok? <==> d.digest.Some?
    ensures r.Ok? ==> d.digest == Some(r.value)
    ensures r.Err? ==> r.error == MissingKey("digest")
  {
    match d.digest
    case None => Err(MissingKey("digest"))
    case Some(x) => Ok(x)
  }

  /**
    `select_platform_manifest`, with `platform.system()` and
    `platform.machine()` passed in. The digest of the first entry whose
    platform matches; without a match, the digest of the first entry; an
    empty list raises IndexError. A successful result is always the digest of
    some entry.
   */
  function SelectPlatformManifest(ms: seq<Descriptor>, system: string, machine: string): (r: Result<string, PullError>)
    ensures ms == [] ==> r == Err(NoManifests)
    ensures forall k :: 0 <= k < |ms| && Matches(ms[k], Lower(system), Lower(machine))
                        && (forall j :: 0 <= j < k ==> !Matches(ms[j], Lower(system), Lower(machine)))
                        ==> r == DigestOf(ms[k])
    ensures ms != [] && (forall i :: 0 <= i < |ms| ==> !Matches(ms[i], Lower(system), Lower(machine)))
            ==> r == DigestOf(ms[0])
    ensures r.Ok? ==> exists i :: 0 <= i < |ms| && ms[i].digest == Some(r.value)
  {
    var currentOs := Lower(system);
    var currentArch := Lower(machine);
    match FirstMatch(ms, currentOs, currentArch)
    case Some(k) => DigestOf(ms[k])
    case None => if ms == [] then Err(NoManifests) else DigestOf(ms[0])
  }

  // ---------------------------------------------------------------- fetching and dispatch

  /**
    `fetch_manifest` after the HTTP request: a non-200 status raises;
    otherwise the body and its media type, which is the body's `mediaType`
    when present and the `Content-Type` header otherwise.
   */
  function FetchResult(resp: Response): (r: Result<(ManifestDoc, Option<string>), PullError>)
    ensures r.Err? <==> resp.status != 200
    ensures r.Err? ==> r.error == FetchFailed(resp.status)
    ensures r.Ok? ==> r.value.0 == resp.body
    ensures r.Ok? && resp.body.mediaType.Some? ==> r.value.1 == resp.body.mediaType
    ensures r.Ok? && resp.body.mediaType.None? ==> r.value.1 == resp.contentType
  {
    if resp.status == 200 then
      Ok((resp.body, if resp.body.mediaType.Some? then resp.body.mediaType else resp.contentType))
    else Err(FetchFailed(resp.status))
  }

  datatype MediaKind = IndexKind | ManifestKind | OtherKind

  /** The three-way split of media types in `docker_pull`. */
  function Classify(mediaType: Option<string>): (k: MediaKind)
    ensures k == IndexKind <==> mediaType == Some(DOCKER_MANIFEST_LIST) || mediaType == Some(OCI_INDEX)
    ensures k == ManifestKind <==> mediaType == Some(DOCKER_MANIFEST) || mediaType == Some(OCI_MANIFEST)
  {
    if mediaType == Some(DOCKER_MANIFEST_LIST) || mediaType == Some(OCI_INDEX) then IndexKind
    else if mediaType == Some(DOCKER_MANIFEST) || mediaType == Some(OCI_MANIFEST) then ManifestKind
    else OtherKind
  }

  /** A single-image manifest yields `manifest["layers"]`; any other media type is unsupported. */
  function LayersOf(doc: ManifestDoc, mediaType: Option<string>): (r: Result<seq<Descriptor>, PullError>)
    ensures Classify(mediaType) != ManifestKind ==> r == Err(UnsupportedMediaType(mediaType))
    ensures Classify(mediaType) == ManifestKind && doc.layers.Some? ==> r == Ok(doc.layers.value)
    ensures Classify(mediaType) == ManifestKind && doc.layers.None? ==> r == Err(MissingKey("layers"))
    ensures r.Ok? ==> doc.layers == Some(r.value)
  {
    if Classify(mediaType) == ManifestKind then
      match doc.layers
      case None => Err(MissingKey("layers"))
      case Some(ls) => Ok(ls)
    else Err(UnsupportedMediaType(mediaType))
  }

  /** The references fetched, in order, and the layer list the pull goes on with. */
  datatype Resolution = Resolution(fetched: seq<string>, layers: Result<seq<Descriptor>, PullError>)

  /**
    The manifest dispatch of `pull`: fetch the tag; an index is narrowed to one
    platform and fetched exactly once more; the manifest finally reached must
    be a single-image manifest.
   */
  function Resolve(reg: Registry, tag: string, system: string, machine: string): (r: Resolution)
    ensures 1 <= |r.fetched| <= 2 && r.fetched[0] == tag
    ensures |r.fetched| == 2 <==>
      && FetchResult(reg.manifestAt(tag)).Ok?
      && Classify(FetchResult(reg.manifestAt(tag)).value.1) == IndexKind
      && FetchResult(reg.manifestAt(tag)).value.0.manifests.Some?
      && SelectPlatformManifest(FetchResult(reg.manifestAt(tag)).value.0.manifests.value, system, machine).Ok?
    ensures |r.fetched| == 2 ==>
      r.fetched[1] == SelectPlatformManifest(FetchResult(reg.manifestAt(tag)).value.0.manifests.value, system, machine).value
    ensures FetchResult(reg.manifestAt(tag)).Ok? && Classify(FetchResult(reg.manifestAt(tag)).value.1) != IndexKind ==>
      r.layers == LayersOf(FetchResult(reg.manifestAt(tag)).value.0, FetchResult(reg.manifestAt(tag)).value.1)
    ensures FetchResult(reg.manifestAt(tag)).Err? ==> r.layers == Err(FetchResult(reg.manifestAt(tag)).error)
    ensures var first := FetchResult(reg.manifestAt(tag));
            first.Ok? && Classify(first.value.1) == IndexKind && first.value.0.manifests.None? ==>
              r.layers == Err(MissingKey("manifests"))
    ensures var first := FetchResult(reg.manifestAt(tag));
            first.Ok? && Classify(first.value.1) == IndexKind && first.value.0.manifests.Some?
            && SelectPlatformManifest(first.value.0.manifests.value, system, machine).Err? ==>
              r.layers == Err(SelectPlatformManifest(first.value.0.manifests.value, system, machine).error)
    ensures |r.fetched| == 2 ==>
      r.layers == match FetchResult(reg.manifestAt(r.fetched[1]))
                  case Err(e) => Err(e)
                  case Ok(p) => LayersOf(p.0, p.1)
    ensures r.layers.Ok? ==>
      var last := FetchResult(reg.manifestAt(r.fetched[|r.fetched| - 1]));
      last.Ok? && Classify(last.value.1) == ManifestKind && last.value.0.layers == Some(r.layers.value)
  {
    match FetchResult(reg.manifestAt(tag))
    case Err(e) => Resolution([tag], Err(e))
    case Ok((doc, mediaType)) =>
      if Classify(mediaType) == IndexKind then
        match doc.manifests
        case None => Resolution([tag], Err(MissingKey("manifests")))
        case Some(ms) =>
          match SelectPlatformManifest(ms, system, machine)
          case Err(e) => Resolution([tag], Err(e))
          case Ok(digest) =>
            match FetchResult(reg.manifestAt(digest))
            case Err(e) => Resolution([tag, digest], Err(e))
            case Ok((doc2, mediaType2)) => Resolution([tag, digest], LayersOf(doc2, mediaType2))
      else Resolution([tag], LayersOf(doc, mediaType))
  }

  // ---------------------------------------------------------------- layer files

  /** `os.path.join(output_dir, "layers")` */
  function LayersDir(outputDir: string): string {
    PathJoin(outputDir, "layers")
  }

  /** Where `download_layer` writes a layer: its digest without `sha256:`, plus `.tar`, in `dir`. */
  function LayerFile(dir: string, digest: string): (file: string)
  {
    PathJoin(dir, RemoveAll(digest, DIGEST_PREFIX) + ".tar")
  }

  /** Every layer archive, whatever its digest, gets a name ending in `.tar`. */
  lemma LayerFileIsTar(dir: string, digest: string)
    ensures var file := LayerFile(dir, digest);
            |file| >= 4 && file[|file| - 4..] == ".tar"
  {
    var name := RemoveAll(digest, DIGEST_PREFIX) + ".tar";
    assert name[|name| - 4..] == ".tar";
  }

  /** A `sha256:<hex>` digest is stored as `<hex>.tar` in the layers directory. */
  lemma LayerFileOfSha256(dir: string, hex: string)
    requires ':' !in hex
    ensures LayerFile(dir, DIGEST_PREFIX + hex) == PathJoin(dir, hex + ".tar")
  {
    var d := DIGEST_PREFIX + hex;
    assert d[..|DIGEST_PREFIX|] == DIGEST_PREFIX && d[|DIGEST_PREFIX|..] == hex;
    RemoveAllAbsent(hex, DIGEST_PREFIX, ':');
  }

  /**
    `download_layer` after the request: a non-200 status raises and writes
    nothing; otherwise the body is written chunk by chunk, so the file holds
    exactly the blob's bytes, at `LayerFile(outputDir, digest)`.
   */
  method DownloadLayer(blob: Blob, digest: string, outputDir: string) returns (r: Result<string, PullError>, written: seq<byte>)
    ensures r.Err? <==> blob.status != 200
    ensures r.Err? ==> r.error == DownloadFailed(blob.status) && written == []
    ensures r.Ok? ==> r.value == LayerFile(outputDir, digest) && written == blob.content
  {
    written := [];
    if blob.status != 200 {
      r := Err(DownloadFailed(blob.status));
      return;
    }
    var file := LayerFile(outputDir, digest);
    var n := |blob.content|;
    var i := 0;
    while i < n
      invariant 0 <= i <= n
      invariant written == blob.content[..i]
    {
      var end := Min(i + CHUNK_SIZE, n);
      written := written + blob.content[i..end];
      i := end;
    }
    r := Ok(file);
  }

  // ---------------------------------------------------------------- the layer loop

  /**
    The `for layer in layers` loop: each layer is downloaded and then
    unpacked into `outputDir` before the next one starts; the first failure
    ends the loop.
   */
  function LayerSteps(reg: Registry, layers: seq<Descriptor>, layersDir: string, outputDir: string): (r: (seq<PullAction>, Outcome))
    ensures |r.0| <= 2 * |layers|
    ensures r.1.Done? ==> |r.0| == 2 * |layers|
    decreases |layers|
  {
    if layers == [] then ([], Done)
    else match layers[0].digest
      case None => ([], Raised(MissingKey("digest")))
      case Some(d) =>
        var blob := reg.blobAt(d);
        if blob.status != 200 then ([], Raised(DownloadFailed(blob.status)))
        else
          var file := LayerFile(layersDir, d);
          if !reg.unpacks(blob.content) then ([Download(d, file, blob.content)], Raised(ExtractFailed(file)))
          else
            var rest := LayerSteps(reg, layers[1..], layersDir, outputDir);
            ([Download(d, file, blob.content), Extract(file, outputDir)] + rest.0, rest.1)
  }

  /** Positions 2i and 2i+1 of `acts` download layer i of `layers` and then unpack it into `outputDir`. */
  predicate LayerActionsAt(reg: Registry, layers: seq<Descriptor>, layersDir: string, outputDir: string, acts: seq<PullAction>, i: nat)
    requires i < |layers| && 2 * i + 1 < |acts|
  {
    && layers[i].digest.Some?
    && var d := layers[i].digest.value;
       && acts[2 * i] == Download(d, LayerFile(layersDir, d), reg.blobAt(d).content)
       && acts[2 * i + 1] == Extract(LayerFile(layersDir, d), outputDir)
  }

  /** A pull that completes downloads and then unpacks every layer, one after another, in manifest order. */
  lemma {:induction false} LayersInOrder(reg: Registry, layers: seq<Descriptor>, layersDir: string, outputDir: string)
    requires LayerSteps(reg, layers, layersDir, outputDir).1 == Done
    ensures var acts := LayerSteps(reg, layers, layersDir, outputDir).0;
      && |acts| == 2 * |layers|
      && forall i :: 0 <= i < |layers| ==> LayerActionsAt(reg, layers, layersDir, outputDir, acts, i)
    decreases |layers|
  {
    if layers != [] {
      LayersInOrder(reg, layers[1..], layersDir, outputDir);
      var d := StepsOfFirstLayer(reg, layers, layersDir, outputDir);
      var acts := LayerSteps(reg, layers, layersDir, outputDir).0;
      var rest := LayerSteps(reg, layers[1..], layersDir, outputDir).0;
      var first := [Download(d, LayerFile(layersDir, d), reg.blobAt(d).content), Extract(LayerFile(layersDir, d), outputDir)];
      forall i | 0 <= i < |layers|
        ensures LayerActionsAt(reg, layers, layersDir, outputDir, acts, i)
      {
        if i > 0 {
          LayerActionsShift(reg, layers, layersDir, outputDir, first, rest, i);
        }
      }
    }
  }

  /** Layer i's actions sit two places later once the first layer's two actions are put in front. */
  lemma LayerActionsShift(reg: Registry, layers: seq<Descriptor>, layersDir: string, outputDir: string,
                          first: seq<PullAction>, rest: seq<PullAction>, i: nat)
    requires |first| == 2 && 1 <= i < |layers| && 2 * i - 1 < |rest|
    requires LayerActionsAt(reg, layers[1..], layersDir, outputDir, rest, i - 1)
    ensures LayerActionsAt(reg, layers, layersDir, outputDir, first + rest, i)
  {
    assert layers[i] == layers[1..][i - 1];
    assert (first + rest)[2 * i] == rest[2 * (i - 1)] && (first + rest)[2 * i + 1] == rest[2 * (i - 1) + 1];
  }

  /** A layer loop that completes starts with the download and extraction of the first layer. */
  lemma StepsOfFirstLayer(reg: Registry, layers: seq<Descriptor>, layersDir: string, outputDir: string) returns (d: string)
    requires layers != [] && LayerSteps(reg, layers, layersDir, outputDir).1 == Done
    ensures layers[0].digest == Some(d)
    ensures LayerSteps(reg, layers[1..], layersDir, outputDir).1 == Done
    ensures LayerSteps(reg, layers, layersDir, outputDir).0
         == [Download(d, LayerFile(layersDir, d), reg.blobAt(d).content), Extract(LayerFile(layersDir, d), outputDir)]
            + LayerSteps(reg, layers[1..], layersDir, outputDir).0
  {
    d := layers[0].digest.value;
  }

  /** Every unpacking step comes right after the download of the same archive. */
  predicate ExtractsFollowDownloads(acts: seq<PullAction>) {
    forall j :: 0 <= j < |acts| && acts[j].Extract? ==>
      0 < j && acts[j - 1].Download? && acts[j - 1].file == acts[j].file
  }

  /** Whatever the outcome, a layer is unpacked only right after its own archive was downloaded. */
  lemma {:induction false} ExtractFollowsDownload(reg: Registry, layers: seq<Descriptor>, layersDir: string, outputDir: string)
    ensures ExtractsFollowDownloads(LayerSteps(reg, layers, layersDir, outputDir).0)
    decreases |layers|
  {
    if layers != [] {
      var acts := LayerSteps(reg, layers, layersDir, outputDir).0;
      var rest := LayerSteps(reg, layers[1..], layersDir, outputDir).0;
      ExtractFollowsDownload(reg, layers[1..], layersDir, outputDir);
      if |acts| > 2 {
        var d := layers[0].digest.value;
        var file := LayerFile(layersDir, d);
        assert acts == [Download(d, file, reg.blobAt(d).content), Extract(file, outputDir)] + rest;
        forall j | 0 <= j < |acts| && acts[j].Extract?
          ensures 0 < j && acts[j - 1].Download? && acts[j - 1].file == acts[j].file
        {
          if j >= 2 {
            assert acts[j] == rest[j - 2];
            if j >= 3 {
              assert acts[j - 1] == rest[j - 3];
            }
          }
        }
      }
    }
  }

  // ---------------------------------------------------------------- the whole pull

  function FetchActions(image: string, refs: seq<string>): (r: seq<PullAction>)
    ensures |r| == |refs|
  {
    seq(|refs|, i requires 0 <= i < |refs| => FetchManifest(image, refs[i]))
  }

  /** `docker_pull`: token, manifest resolution, the two directories, then the layer loop. */
  function PullSpec(reg: Registry, image: string, tag: string, outputDir: string, system: string, machine: string): (r: (seq<PullAction>, Outcome))
    ensures r.0 != [] && r.0[0] == RequestToken(image)
    ensures !reg.tokenGranted ==> r == ([RequestToken(image)], Raised(AuthFailed))
    ensures r.1.Done? ==> reg.tokenGranted && Resolve(reg, tag, system, machine).layers.Ok?
  {
    if !reg.tokenGranted then ([RequestToken(image)], Raised(AuthFailed))
    else
      var res := Resolve(reg, tag, system, machine);
      var fetches := [RequestToken(image)] + FetchActions(image, res.fetched);
      match res.layers
      case Err(e) => (fetches, Raised(e))
      case Ok(layers) =>
        var steps := LayerSteps(reg, layers, LayersDir(outputDir), outputDir);
        (fetches + [MakeDirs(outputDir), MakeDirs(LayersDir(outputDir))] + steps.0, steps.1)
  }

  /**
    A pull that completes has fetched the token, the manifests and the two
    directories, and then downloaded and unpacked exactly the layers of the
    last manifest it fetched, which is a single-image manifest, one after
    another in that manifest's order.
   */
  lemma PullDownloadsResolvedLayers(reg: Registry, image: string, tag: string, outputDir: string, system: string, machine: string)
    requires PullSpec(reg, image, tag, outputDir, system, machine).1 == Done
    ensures Resolve(reg, tag, system, machine).layers.Ok?
    ensures var res := Resolve(reg, tag, system, machine);
            var last := FetchResult(reg.manifestAt(res.fetched[|res.fetched| - 1]));
            last.Ok? && Classify(last.value.1) == ManifestKind && last.value.0.layers == Some(res.layers.value)
    ensures var res := Resolve(reg, tag, system, machine);
            var acts := PullSpec(reg, image, tag, outputDir, system, machine).0;
            var n := |res.fetched| + 3;
            |acts| == n + 2 * |res.layers.value|
            && acts[..n] == [RequestToken(image)] + FetchActions(image, res.fetched) + [MakeDirs(outputDir), MakeDirs(LayersDir(outputDir))]
    ensures var res := Resolve(reg, tag, system, machine);
            var acts := PullSpec(reg, image, tag, outputDir, system, machine).0;
            var n := |res.fetched| + 3;
            forall i :: 0 <= i < |res.layers.value| ==>
              LayerActionsAt(reg, res.layers.value, LayersDir(outputDir), outputDir, acts[n..], i)
  {
    var res := Resolve(reg, tag, system, machine);
    var ls := res.layers.value;
    var steps := LayerSteps(reg, ls, LayersDir(outputDir), outputDir).0;
    var prefix := PullPrefix(image, res.fetched, outputDir);
    PullSplits(reg, image, tag, outputDir, system, machine);
    LayersInOrder(reg, ls, LayersDir(outputDir), outputDir);
    var acts := PullSpec(reg, image, tag, outputDir, system, machine).0;
    assert acts[..|prefix|] == prefix;
    assert acts[|prefix|..] == steps;
  }

  /** The actions of a pull before its layer loop: the token, the manifest fetches and the two directories. */
  function PullPrefix(image: string, fetched: seq<string>, outputDir: string): (r: seq<PullAction>)
    ensures |r| == |fetched| + 3
  {
    [RequestToken(image)] + FetchActions(image, fetched) + [MakeDirs(outputDir), MakeDirs(LayersDir(outputDir))]
  }

  /** A pull that completes is its prefix followed by a completed layer loop over the resolved layers. */
  lemma PullSplits(reg: Registry, image: string, tag: string, outputDir: string, system: string, machine: string)
    requires PullSpec(reg, image, tag, outputDir, system, machine).1 == Done
    ensures var res := Resolve(reg, tag, system, machine);
            && res.layers.Ok?
            && LayerSteps(reg, res.layers.value, LayersDir(outputDir), outputDir).1 == Done
            && PullSpec(reg, image, tag, outputDir, system, machine).0
               == PullPrefix(image, res.fetched, outputDir) + LayerSteps(reg, res.layers.value, LayersDir(outputDir), outputDir).0
  {
  }

  /** The layer loop of `pull`: download and unpack each layer in turn, stopping at the first failure. */
  method PullLayers(reg: Registry, layers: seq<Descriptor>, layersDir: string, outputDir: string)
    returns (actions: seq<PullAction>, outcome: Outcome)
    ensures (actions, outcome) == LayerSteps(reg, layers, layersDir, outputDir)
  {
    actions := [];
    var i := 0;
    assert layers[0..] == layers;
    assert [] + LayerSteps(reg, layers, layersDir, outputDir).0 == LayerSteps(reg, layers, layersDir, outputDir).0;
    while i < |layers|
      invariant 0 <= i <= |layers|
      invariant LayerSteps(reg, layers, layersDir, outputDir)
        == (actions + LayerSteps(reg, layers[i..], layersDir, outputDir).0,
            LayerSteps(reg, layers[i..], layersDir, outputDir).1)
    {
      assert layers[i..][1..] == layers[i + 1..] && layers[i..][0] == layers[i];
      assert actions + [] == actions;
      if layers[i].digest.None? {
        outcome := Raised(MissingKey("digest"));
        return;
      }
      var digest := layers[i].digest.value;
      var file, written := DownloadLayer(reg.blobAt(digest), digest, layersDir);
      if file.Err? {
        outcome := Raised(file.error);
        return;
      }
      actions := actions + [Download(digest, file.value, written)];
      if !reg.unpacks(written) {
        outcome := Raised(ExtractFailed(file.value));
        return;
      }
      ghost var before := actions[..|actions| - 1];
      actions := actions + [Extract(file.value, outputDir)];
      ghost var rest := LayerSteps(reg, layers[i + 1..], layersDir, outputDir);
      assert LayerSteps(reg, layers[i..], layersDir, outputDir)
        == ([Download(digest, file.value, written), Extract(file.value, outputDir)] + rest.0, rest.1);
      assert before + ([Download(digest, file.value, written), Extract(file.value, outputDir)] + rest.0)
        == actions + rest.0;
      i := i + 1;
    }
    assert layers[i..] == [];
    assert actions + [] == actions;
    outcome := Done;
  }

  /** `docker_pull` as the program runs it, returning the steps it took and how it ended. */
  method Pull(reg: Registry, image: string, tag: string, outputDir: string, system: string, machine: string)
    returns (actions: seq<PullAction>, outcome: Outcome)
    ensures (actions, outcome) == PullSpec(reg, image, tag, outputDir, system, machine)
  {
    actions := [RequestToken(image)];
    if !reg.tokenGranted {
      outcome := Raised(AuthFailed);
      return;
    }
    var res := Resolve(reg, tag, system, machine);
    actions := actions + FetchActions(image, res.fetched);
    if res.layers.Err? {
      outcome := Raised(res.layers.error);
      return;
    }
    var layersDir := LayersDir(outputDir);
    actions := actions + [MakeDirs(outputDir), MakeDirs(layersDir)];
    var steps;
    steps, outcome := PullLayers(reg, res.layers.value, layersDir, outputDir);
    actions := actions + steps;
  }
}
