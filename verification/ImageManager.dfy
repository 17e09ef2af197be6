/**
 Finding or importing an image, and the forecast of it (`internal/pkg/imagemanager/manager.go`).
 Files, downloads, hashes and templates are functions of a `World`; the import lock is in `ImageLock`.
 */
module ImageManager {
  import opened Wrappers
  import opened Text
  import opened OpenNebula

  datatype Request = Request(
    imageName: string,
    talosVersion: string,
    schematicId: string,
    arch: string,
    datastore: string,
    allowImport: Option<bool>,
    existingImageId: int,
    existingChecksum: string,
    existingSource: string,
    providerManaged: bool)

  datatype Config = Config(
    importOnMiss: bool,
    artifactURLTemplate: string,
    checksumURLTemplate: string,
    requireChecksum: bool,
    defaultDatastore: string)

  datatype Action = NoAction | Reused | Imported | WaitedForExistingImport

  datatype ImageResult = ImageResult(
    image: ImageRef,
    sourceURL: string,
    checksum: string,
    providerManaged: bool,
    action: Action,
    cacheHit: bool,
    checksumVerified: bool)

  const NO_IMAGE := ImageRef(0, "", "", 0)
  const NO_RESULT := ImageResult(NO_IMAGE, "", "", false, NoAction, false, false)

  datatype Prediction = Prediction(
    image: ImageRef,
    action: Action,
    sourceURL: string,
    datastore: string,
    importRequired: bool,
    checksumRequired: bool)

  /**
   What the outside answers. `relook...` are the lookups in the import lock, which see the imports of
   others; `staged` is the path a downloaded and unpacked artifact ends at.
   */
  datatype World = World(
    lookupInDatastore: (string, string) -> Result<ImageRef, ErrorClass>,
    lookupByName: string -> Result<ImageRef, ErrorClass>,
    relookInDatastore: (string, string) -> Result<ImageRef, ErrorClass>,
    relookByName: string -> Result<ImageRef, ErrorClass>,
    getImage: int -> Result<ImageInfo, ErrorClass>,
    lookupDatastore: string -> Result<int, ErrorClass>,
    createImage: CreateImageRequest -> Result<ImageRef, ErrorClass>,
    render: (string, Request) -> Result<string, ErrorClass>,
    fetchChecksum: string -> Result<string, ErrorClass>,
    hashSource: string -> Result<string, ErrorClass>,
    download: string -> Option<ErrorClass>,
    hashStaged: string -> Result<string, ErrorClass>,
    unpack: string -> Option<ErrorClass>,
    staged: string -> string)

  // ---------------------------------------------------------------- lookups

  function LookupImage(world: World, imageName: string, datastore: string): Result<ImageRef, ErrorClass> {
    if !IsBlank(datastore) then world.lookupInDatastore(imageName, datastore) else world.lookupByName(imageName)
  }

  function RelookImage(world: World, imageName: string, datastore: string): Result<ImageRef, ErrorClass> {
    if !IsBlank(datastore) then world.relookInDatastore(imageName, datastore) else world.relookByName(imageName)
  }

  function WithArch(request: Request): Request {
    if request.arch == "" then request.(arch := "amd64") else request
  }

  function DatastoreOf(config: Config, request: Request): string {
    if request.datastore == "" then config.defaultDatastore else request.datastore
  }

  function MayImport(config: Config, request: Request): bool {
    request.allowImport.GetOr(config.importOnMiss)
  }

  // ---------------------------------------------------------------- checksums

  /**
   `resolveChecksum` and `validateDownloadedChecksum`, which differ in what they hash: `actual` is the
   hash of the source or of the downloaded file.
   */
  function CheckedSum(world: World, config: Config, request: Request,
                      actual: Result<string, ErrorClass>): Result<string, ErrorClass> {
    var checksumTemplate := TrimSpace(config.checksumURLTemplate);
    if request.existingChecksum != "" then Success(request.existingChecksum)
    else if !config.requireChecksum && checksumTemplate == "" then Success("")
    else if checksumTemplate == "" then actual
    else match world.render(checksumTemplate, request)
      case Failure(e) => Failure(e)
      case Success(checksumURL) =>
        match world.fetchChecksum(checksumURL)
        case Failure(e) => Failure(e)
        case Success(expected) =>
          if !config.requireChecksum then Success(expected)
          else match actual
            case Failure(e) => Failure(e)
            case Success(sum) => if EqualFold(expected, sum) then Success(expected) else Failure(Terminal)
  }

  /** A published checksum can be had: the template renders and the fetch answers. */
  predicate Published(world: World, config: Config, request: Request) {
    var rendered := world.render(TrimSpace(config.checksumURLTemplate), request);
    rendered.Success? && world.fetchChecksum(rendered.value).Success?
  }

  lemma FoldsToItself(s: string)
    ensures EqualFold(s, s) && !EqualFold(s, s + "x")
  {
  }

  /**
   Every checksum that comes out belongs to the data exactly when the configuration requires checksums
   and none is recorded yet. Otherwise some data with another hash passes, unless nothing is returned
   or no published checksum can be had.
   */
  lemma ChecksumBelongsToData(world: World, config: Config, request: Request)
    ensures (forall sum :: var r := CheckedSum(world, config, request, Success(sum));
                           r.Success? ==> EqualFold(r.value, sum))
       <==> (if request.existingChecksum != "" then false
             else if config.requireChecksum then true
             else !IsBlank(config.checksumURLTemplate) && !Published(world, config, request))
  {
    if request.existingChecksum != "" {
      FoldsToItself(request.existingChecksum);
      assert CheckedSum(world, config, request, Success(request.existingChecksum + "x")) ==
             Success(request.existingChecksum);
    } else if config.requireChecksum {
      forall sum ensures EqualFold(sum, sum) { FoldsToItself(sum); }
    } else if IsBlank(config.checksumURLTemplate) {
      assert CheckedSum(world, config, request, Success("x")) == Success("");
    } else if Published(world, config, request) {
      var expected := world.fetchChecksum(world.render(TrimSpace(config.checksumURLTemplate), request).value).value;
      FoldsToItself(expected);
      assert CheckedSum(world, config, request, Success(expected + "x")) == Success(expected);
    }
  }

  // ---------------------------------------------------------------- preparing an import

  predicate NeedsLocalStaging(sourceURL: string) {
    var lower := Lower(TrimSpace(sourceURL));
    HasSuffix(lower, ".raw.zst") || HasSuffix(lower, ".zst")
  }

  datatype Prepared = Prepared(createRequest: CreateImageRequest, checksum: string)

  /** `prepareImport` with `stageCompressedArtifact`. */
  function PrepareImport(world: World, config: Config, request: Request, sourceURL: string, datastoreId: int)
    : Result<Prepared, ErrorClass>
  {
    if !NeedsLocalStaging(sourceURL) then
      match CheckedSum(world, config, request, world.hashSource(sourceURL))
      case Failure(e) => Failure(e)
      case Success(checksum) =>
        Success(Prepared(CreateImageRequest(datastoreId, request.imageName, sourceURL, "", "", ""), checksum))
    else if world.download(sourceURL).Some? then Failure(world.download(sourceURL).value)
    else
      match CheckedSum(world, config, request, world.hashStaged(sourceURL))
      case Failure(e) => Failure(e)
      case Success(checksum) =>
        if world.unpack(sourceURL).Some? then Failure(Terminal)
        else Success(Prepared(CreateImageRequest(datastoreId, request.imageName, "", world.staged(sourceURL), "raw",
                                                 "raw"), checksum))
  }

  // ---------------------------------------------------------------- the state of an image

  function FirstNonEmpty(a: string, b: string): string {
    if !IsBlank(a) then a else if !IsBlank(b) then b else ""
  }

  const READY_STATES: set<string> := {"READY", "USED", "USED_PERS"}
  const FAILED_STATES: set<string> := {"ERROR", "DELETE"}

  function Evaluate(info: ImageInfo, request: Request, providerManaged: bool): (ImageResult, Option<ErrorClass>) {
    var result := ImageResult(ImageRef(info.id, info.name, info.datastore, info.sizeMiB),
                              FirstNonEmpty(request.existingSource, info.source),
                              request.existingChecksum, providerManaged, NoAction, false, false);
    if Upper(info.state) in READY_STATES then (result, None)
    else if Upper(info.state) in FAILED_STATES then (NO_RESULT, Some(Terminal))
    else (result, Some(Retryable))
  }

  predicate IsReady(world: World, imageId: int) {
    world.getImage(imageId).Success? && Upper(world.getImage(imageId).value.state) in READY_STATES
  }

  // ---------------------------------------------------------------- the forecast

  function Predict(world: World, config: Config, asked: Request): Result<Prediction, ErrorClass> {
    var request := WithArch(asked);
    var datastore := DatastoreOf(config, request);
    match LookupImage(world, request.imageName, datastore)
    case Success(image) => Success(Prediction(image, Reused, "", datastore, false, config.requireChecksum))
    case Failure(e) =>
      if e != NotFound then Failure(e)
      else if !MayImport(config, request) then Failure(NotFound)
      else
        match world.render(config.artifactURLTemplate, request)
        case Failure(e) => Failure(e)
        case Success(sourceURL) =>
          Success(Prediction(NO_IMAGE, Imported, sourceURL, datastore, true, config.requireChecksum))
  }

  /** The inventory does not change between the first lookup and the one in the lock. */
  ghost predicate IsQuiet(world: World) {
    && (forall name, datastore {:trigger world.relookInDatastore(name, datastore)} ::
          world.relookInDatastore(name, datastore) == world.lookupInDatastore(name, datastore))
    && (forall name {:trigger world.relookByName(name)} :: world.relookByName(name) == world.lookupByName(name))
  }

  /** What it takes, beyond the forecast, for the real thing to succeed. */
  predicate Completes(world: World, config: Config, asked: Request, p: Prediction) {
    var request := WithArch(asked);
    if !p.importRequired then IsReady(world, p.image.id)
    else
      && !IsBlank(config.artifactURLTemplate)
      && p.datastore != "" && world.lookupDatastore(p.datastore).Success?
      && var prepared := PrepareImport(world, config, request, p.sourceURL, world.lookupDatastore(p.datastore).value);
         && prepared.Success?
         && world.createImage(prepared.value.createRequest).Success?
         && IsReady(world, world.createImage(prepared.value.createRequest).value.id)
  }

  /** The forecast of an import does not need a datastore; the import does. */
  lemma PredictIgnoresDatastore(world: World, config: Config, asked: Request)
    requires DatastoreOf(config, asked) == "" && world.lookupByName(asked.imageName) == Failure(NotFound)
    requires MayImport(config, asked) && world.render(config.artifactURLTemplate, WithArch(asked)).Success?
    ensures var p := Predict(world, config, asked);
            p.Success? && p.value.importRequired && !Completes(world, config, asked, p.value)
  {
    assert IsBlank("");
  }

  /**
   The image made is the one asked for, from the source that was forecast: OpenNebula fetches it, or gets the
   unpacked file as a raw disk. The checksum is what the checks made of the hash of that data; a blank source
   is not reported.
   */
  ghost predicate ImportedAs(world: World, config: Config, asked: Request, p: Prediction, result: ImageResult,
                             made: CreateImageRequest)
  {
    var staged := NeedsLocalStaging(p.sourceURL);
    var hash := if staged then world.hashStaged(p.sourceURL) else world.hashSource(p.sourceURL);
    && world.lookupDatastore(p.datastore) == Success(made.datastoreId)
    && made.name == asked.imageName
    && (staged ==> made.sourceURL == "" && made.sourcePath == world.staged(p.sourceURL)
                   && made.driver == "raw" && made.format == "raw")
    && (!staged ==> made.sourceURL == p.sourceURL && made.sourcePath == "" && made.driver == "" && made.format == "")
    && CheckedSum(world, config, WithArch(asked), hash) == Success(result.checksum)
    && (result.checksumVerified <==> result.checksum != "") && !result.cacheHit && result.providerManaged
    && (!IsBlank(p.sourceURL) ==> result.sourceURL == p.sourceURL)
  }

  // ---------------------------------------------------------------- the real thing

  class Manager {
    const world: World
    const config: Config
    var created: seq<CreateImageRequest>

    constructor (world: World, config: Config)
      ensures this.world == world && this.config == config && created == []
    {
      this.world, this.config, created := world, config, [];
    }

    method CreateImage(request: CreateImageRequest) returns (r: Result<ImageRef, ErrorClass>)
      modifies this`created
      ensures r == world.createImage(request)
      ensures created == if r.Success? then old(created) + [request] else old(created)
    {
      r := world.createImage(request);
      if r.Success? {
        created := created + [request];
      }
    }

    /** Takes an image that was found as the result. */
    method Reuse(request: Request, imageId: int, providerManaged: bool, action: Action)
      returns (result: ImageResult, failure: Option<ErrorClass>)
      ensures failure == None <==> IsReady(world, imageId)
      ensures var info := world.getImage(imageId);
        failure.Some? ==> failure.value == if info.Failure? then info.error
                                           else if Upper(info.value.state) in FAILED_STATES then Terminal
                                           else Retryable
      ensures failure == None ==>
        && result.action == action && result.cacheHit && result.image.id == world.getImage(imageId).value.id
        && result.checksum == request.existingChecksum && (result.checksumVerified <==> request.existingChecksum != "")
    {
      var info := world.getImage(imageId);
      if info.Failure? {
        return NO_RESULT, Some(info.error);
      }
      var (evaluated, e) := Evaluate(info.value, request, providerManaged);
      result := evaluated.(action := action, cacheHit := true, checksumVerified := evaluated.checksum != "");
      failure := e;
    }

    /** `waited` is what the import lock reports. */
    method Resolve(asked: Request, waited: bool) returns (result: ImageResult, failure: Option<ErrorClass>)
      modifies this`created
      // with a recorded image nothing is looked up and nothing created
      ensures asked.existingImageId != 0 ==>
        created == old(created) && (failure == None <==> IsReady(world, asked.existingImageId))
      // at most one image is created, and always when the action is an import
      ensures created == old(created) || (|created| == |old(created)| + 1 && created[..|old(created)|] == old(created)
                                          && created[|old(created)|].name == asked.imageName)
      ensures failure == None ==> (result.action.Imported? <==> created != old(created))
      // an image that somebody imports while this waits for the lock is taken as it is
      ensures asked.existingImageId == 0 ==>
        var datastore := DatastoreOf(config, asked);
        var found, again := LookupImage(world, asked.imageName, datastore),
            RelookImage(world, asked.imageName, datastore);
        && (found.Success? ==> created == old(created) && (failure == None <==> IsReady(world, found.value.id)))
        && (found.Failure? && again.Success? ==>
              && created == old(created)
              && (failure == None ==>
                    IsReady(world, again.value.id) && result.image.id == world.getImage(again.value.id).value.id
                                      && result.action == if waited then WaitedForExistingImport else Reused))
      // what stands in the way before the import lock is taken
      ensures asked.existingImageId == 0 ==>
        var datastore := DatastoreOf(config, asked);
        var found := LookupImage(world, asked.imageName, datastore);
        && (found.Failure? && (found.error != NotFound || !MayImport(config, asked)) ==>
              failure == Some(found.error) && created == old(created))
        && (found == Failure(NotFound) && MayImport(config, asked) &&
            (IsBlank(config.artifactURLTemplate) || datastore == "") ==>
              failure == Some(Policy) && created == old(created))
      // without a recorded image and without concurrency: success is the forecast's success and what is left to do
      ensures asked.existingImageId == 0 && IsQuiet(world) ==>
        var p := Predict(world, config, asked);
        && (failure == None <==> p.Success? && Completes(world, config, asked, p.value))
        && (failure == None ==>
              && result.action == p.value.action
              && (!p.value.importRequired ==> created == old(created))
              && (p.value.importRequired ==> ImportedAs(world, config, asked, p.value, result, created[|created| - 1])))
    {
      hide CheckedSum, NeedsLocalStaging, TrimSpace, Upper, READY_STATES, FAILED_STATES;
      var request := WithArch(asked);
      var datastore := DatastoreOf(config, request);
      if request.existingImageId != 0 {
        result, failure := Reuse(request, request.existingImageId, request.providerManaged, Reused);
        return;
      }
      var found := LookupImage(world, request.imageName, datastore);
      if found.Success? {
        result, failure := Reuse(request, found.value.id, request.providerManaged, Reused);
        return;
      }
      if found.error != NotFound || !MayImport(config, request) {
        return NO_RESULT, Some(found.error);
      }
      if IsBlank(config.artifactURLTemplate) || datastore == "" {
        return NO_RESULT, Some(Policy);
      }
      var datastoreId := world.lookupDatastore(datastore);
      if datastoreId.Failure? {
        return NO_RESULT, Some(datastoreId.error);
      }
      var sourceURL := world.render(config.artifactURLTemplate, request);
      if sourceURL.Failure? {
        return NO_RESULT, Some(sourceURL.error);
      }
      // here the import lock is taken
      found := RelookImage(world, request.imageName, datastore);
      if found.Success? {
        result, failure := Reuse(request, found.value.id, true, if waited then WaitedForExistingImport else Reused);
        return;
      }
      var prepared := PrepareImport(world, config, request, sourceURL.value, datastoreId.value);
      if prepared.Failure? {
        return NO_RESULT, Some(prepared.error);
      }
      var image := CreateImage(prepared.value.createRequest);
      if image.Failure? {
        return NO_RESULT, Some(image.error);
      }
      var info := world.getImage(image.value.id);
      if info.Failure? {
        return NO_RESULT, Some(info.error);
      }
      request := request.(existingChecksum := prepared.value.checksum, existingSource := sourceURL.value);
      var (evaluated, e) := Evaluate(info.value, request, true);
      result := evaluated.(action := Imported, cacheHit := false, checksumVerified := prepared.value.checksum != "");
      failure := e;
    }
  }
}
