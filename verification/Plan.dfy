/**
 Resolving a request into a plan, the checks on a plan, and the dry run of both
 (`internal/pkg/provider/preflight.go`, `explain.go`, `resolveRequest` in `provision.go`).
 */
module Plan {
  import opened Wrappers
  import opened Text
  import opened OpenNebula
  import opened Placement
  import Validation
  import ImageManager

  const STORAGE_PROFILE_LOCAL_ROOT := "local-root"
  const STORAGE_PROFILE_CEPH_RBD := "ceph-rbd"
  const STORAGE_PROFILE_CEPHFS_CAPABLE := "cephfs-capable"
  const MANUAL_WARN := "warn"

  datatype Resources = Resources(cpu: string, vcpu: int, memoryMiB: int, rootDiskGiB: int)

  datatype PreflightError =
    | ResourcesIncomplete
    | NoHostSelected
    | ManualNotValidated
    | ManualDenied
    | StorageIncompatible
    | OutsideNetworkZone

  datatype PreflightWarning = ManualNotFullyValidated

  datatype PreflightStatus = Pass | Warn | Fail

  datatype PreflightResult = PreflightResult(status: PreflightStatus, errors: seq<PreflightError>,
                                             warnings: seq<PreflightWarning>)

  datatype Config = Config(
    validation: Validation.Config,
    placement: PlacementConfig,
    images: ImageManager.Config,
    hypervisor: string,
    bootstrapProfile: string,
    failOnWarnings: bool)

  /** The answers of OpenNebula, which stay the same while a request is resolved. */
  datatype Inventory = Inventory(
    template: string -> Result<int, ErrorClass>,
    networks: seq<string> -> Result<seq<int>, ErrorClass>,
    datastore: string -> Result<DatastoreRef, ErrorClass>,
    hypervisor: Result<string, ErrorClass>,
    placement: (PlacementRequest, string) -> Result<PlacementDecision, ErrorClass>,
    resources: Validation.ProviderData -> Result<Resources, ErrorClass>,
    imageName: (string, string, string) -> Result<string, ErrorClass>,
    images: ImageManager.World)

  // ---------------------------------------------------------------- preflight

  function EffectiveStorageProfile(data: Validation.ProviderData): string {
    if data.placement.storageProfile == "" then STORAGE_PROFILE_ANY else data.placement.storageProfile
  }

  predicate DatastoreSupports(datastore: DatastoreRef, profile: string, hostTags: seq<string>) {
    if profile == "" || profile == STORAGE_PROFILE_ANY then true
    else if profile == STORAGE_PROFILE_LOCAL_ROOT then !datastore.cephBacked
    else if profile == STORAGE_PROFILE_CEPH_RBD || profile == STORAGE_PROFILE_CEPHFS_CAPABLE
    then profile in datastore.capabilities && profile in hostTags
    else false
  }

  predicate ManualNetworksValidated(config: Validation.Config, data: Validation.ProviderData) {
    forall k :: 0 <= k < |data.networks| ==>
      data.networks[k].profile != ""
      && config.networkProfile(data.networks[k].profile).Some?
      && config.networkProfile(data.networks[k].profile).value.manualValidated
  }

  /** Whether a check on the plan fails. */
  predicate Finds(config: Config, data: Validation.ProviderData, resources: Resources, datastore: DatastoreRef,
                  selected: HostInfo, error: PreflightError)
  {
    var policy := config.validation.manualNetworkingMode;
    match error
    case ResourcesIncomplete => resources.vcpu <= 0 || resources.memoryMiB <= 0 || resources.rootDiskGiB <= 0
    case NoHostSelected => selected.id == 0
    case ManualNotValidated =>
      data.networkContextMode == "manual" && policy == Validation.MANUAL_REQUIRE_VALIDATION &&
          !ManualNetworksValidated(config.validation, data)
    case ManualDenied => data.networkContextMode == "manual" && policy == Validation.MANUAL_DENY
    case StorageIncompatible => !DatastoreSupports(datastore, EffectiveStorageProfile(data), selected.tags)
    case OutsideNetworkZone =>
      data.placement.networkZone != "" && !config.placement.hostInNetworkZone(data.placement.networkZone, selected.name)
  }

  predicate Warns(config: Config, data: Validation.ProviderData) {
    data.networkContextMode == "manual" && config.validation.manualNetworkingMode == MANUAL_WARN
  }

  function When(found: bool, error: PreflightError): seq<PreflightError> {
    if found then [error] else []
  }

  /** The errors found, in the order of the checks. */
  function ErrorsOf(config: Config, data: Validation.ProviderData, resources: Resources, datastore: DatastoreRef,
                    selected: HostInfo)
    : seq<PreflightError>
  {
    When(Finds(config, data, resources, datastore, selected, ResourcesIncomplete), ResourcesIncomplete)
    + When(Finds(config, data, resources, datastore, selected, NoHostSelected), NoHostSelected)
    + When(Finds(config, data, resources, datastore, selected, ManualNotValidated), ManualNotValidated)
    + When(Finds(config, data, resources, datastore, selected, ManualDenied), ManualDenied)
    + When(Finds(config, data, resources, datastore, selected, StorageIncompatible), StorageIncompatible)
    + When(Finds(config, data, resources, datastore, selected, OutsideNetworkZone), OutsideNetworkZone)
  }

  lemma ErrorsAreFound(config: Config, data: Validation.ProviderData, resources: Resources, datastore: DatastoreRef,
                       selected: HostInfo, error: PreflightError)
    ensures error in ErrorsOf(config, data, resources, datastore, selected) <==>
      Finds(config, data, resources, datastore, selected, error)
  {
    hide Finds;
    match error
    case ResourcesIncomplete =>
    case _ =>
  }

  function Preflight(config: Config, data: Validation.ProviderData, resources: Resources, datastore: DatastoreRef,
                     selected: HostInfo)
    : PreflightResult
  {
    var errors := ErrorsOf(config, data, resources, datastore, selected);
    var warnings := if Warns(config, data) then [ManualNotFullyValidated] else [];
    PreflightResult(if errors != [] then Fail else if warnings != [] then Warn else Pass, errors, warnings)
  }

  method RunPreflight(config: Config, data: Validation.ProviderData, resources: Resources, datastore: DatastoreRef,
                      selected: HostInfo)
    returns (result: PreflightResult)
    ensures result == Preflight(config, data, resources, datastore, selected)
  {
    hide DatastoreSupports, ManualNetworksValidated, EffectiveStorageProfile;
    var errors: seq<PreflightError> := [];
    var warnings: seq<PreflightWarning> := [];
    if resources.vcpu <= 0 || resources.memoryMiB <= 0 || resources.rootDiskGiB <= 0 {
      errors := errors + [ResourcesIncomplete];
    }
    if selected.id == 0 {
      errors := errors + [NoHostSelected];
    }
    ghost var first := errors;
    assert first == When(Finds(config, data, resources, datastore, selected, ResourcesIncomplete), ResourcesIncomplete)
                  + When(Finds(config, data, resources, datastore, selected, NoHostSelected), NoHostSelected);
    if data.networkContextMode == "manual" {
      var mode := config.validation.manualNetworkingMode;
      if mode == MANUAL_WARN {
        warnings := warnings + [ManualNotFullyValidated];
      } else if mode == Validation.MANUAL_REQUIRE_VALIDATION {
        if !ManualNetworksValidated(config.validation, data) {
          errors := errors + [ManualNotValidated];
        }
      } else if mode == Validation.MANUAL_DENY {
        errors := errors + [ManualDenied];
      }
    }
    ghost var second := errors;
    assert second == first + When(Finds(config, data, resources, datastore, selected, ManualNotValidated),
                                  ManualNotValidated)
                   + When(Finds(config, data, resources, datastore, selected, ManualDenied), ManualDenied);
    if !DatastoreSupports(datastore, EffectiveStorageProfile(data), selected.tags) {
      errors := errors + [StorageIncompatible];
    }
    if data.placement.networkZone != ""
       && !config.placement.hostInNetworkZone(data.placement.networkZone, selected.name) {
      errors := errors + [OutsideNetworkZone];
    }
    assert errors == second + When(Finds(config, data, resources, datastore, selected, StorageIncompatible),
                                   StorageIncompatible)
                   + When(Finds(config, data, resources, datastore, selected, OutsideNetworkZone), OutsideNetworkZone);
    result := PreflightResult(if |errors| > 0 then Fail else if |warnings| > 0 then Warn else Pass, errors, warnings);
  }

  /** A plan passes preflight. */
  predicate Passes(config: Config, preflight: PreflightResult) {
    preflight.status != Fail && !(config.failOnWarnings && |preflight.warnings| > 0)
  }

  // ---------------------------------------------------------------- the plan

  datatype ResolvedPlan = ResolvedPlan(
    data: Validation.ProviderData,
    resources: Resources,
    template: int,
    networks: seq<int>,
    datastore: DatastoreRef,
    hypervisor: string,
    storageProfile: string,
    placement: PlacementDecision,
    bootstrapProfile: string,
    preflight: PreflightResult)

  /** A plan that preflight refuses comes back with the error. */
  datatype PlanError =
    | Undecodable
    | Invalid(problem: Validation.Problem)
    | Client(kind: ErrorClass)
    | Refused(plan: ResolvedPlan)

  const NO_DATASTORE := DatastoreRef(0, "", false, [])

  function NetworkNames(data: Validation.ProviderData): seq<string> {
    seq(|data.networks|, k requires 0 <= k < |data.networks| => data.networks[k].name)
  }

  function ResolveHypervisor(config: Config, inventory: Inventory): Result<string, ErrorClass> {
    if config.hypervisor == "" || config.hypervisor == "auto" then inventory.hypervisor
    else if config.hypervisor == HYPERVISOR_KVM || config.hypervisor == HYPERVISOR_QEMU then Success(config.hypervisor)
    else Failure(Policy)
  }

  function ResolveBootstrapProfile(config: Config, hypervisor: string): string {
    if config.bootstrapProfile in {"lab", "production", "custom"} then config.bootstrapProfile
    else if hypervisor == HYPERVISOR_QEMU || config.placement.environmentProfile == ENVIRONMENT_LAB_QEMU then "lab"
    else "production"
  }

  function Validated(config: Config, data: Validation.ProviderData): Result<Validation.ProviderData, PlanError> {
    var problem := Validation.FirstProblem(config.validation, data);
    if problem.Some? then Failure(Invalid(problem.value)) else Success(Validation.Filled(config.validation, data))
  }

  /** `resolveRequest`, which also makes sure that the datastore exists. */
  function ResolveRequest(config: Config, inventory: Inventory, asked: Option<Validation.ProviderData>)
    : Result<(Validation.ProviderData, Resources), PlanError>
  {
    if asked.None? then Failure(Undecodable)
    else
      match Validated(config, asked.value)
      case Failure(e) => Failure(e)
      case Success(data) =>
        match inventory.resources(data)
        case Failure(e) => Failure(Client(e))
        case Success(resources) =>
          var resolved := data.(datastore := Validation.Default(data.datastore, config.validation.defaultDatastore));
          if resolved.datastore == "" then Success((resolved, resources))
          else
            match inventory.datastore(resolved.datastore)
            case Failure(e) => Failure(Client(e))
            case Success(_) => Success((resolved, resources))
  }

  /** A plan whose only fault are warnings that count as errors is refused as failed, too. */
  function ResolveProvisionPlan(config: Config, inventory: Inventory, asked: Option<Validation.ProviderData>)
    : Result<ResolvedPlan, PlanError>
  {
    match ResolveRequest(config, inventory, asked)
    case Failure(e) => Failure(e)
    case Success((request, resources)) =>
      var template := inventory.template(request.templateName);
      if template.Failure? then Failure(Client(template.error)) else
      var networks := inventory.networks(NetworkNames(request));
      if networks.Failure? then Failure(Client(networks.error)) else
      var datastoreName := Validation.Default(request.datastore, config.validation.defaultDatastore);
      var found := if datastoreName == "" then Success(NO_DATASTORE) else inventory.datastore(datastoreName);
      if found.Failure? then Failure(Client(found.error)) else
      var data := if datastoreName == "" then request else request.(datastore := datastoreName);
      var hypervisor := ResolveHypervisor(config, inventory);
      if hypervisor.Failure? then Failure(Client(hypervisor.error)) else
      var placement := inventory.placement(data.placement, hypervisor.value);
      if placement.Failure? then Failure(Client(placement.error)) else
      var preflight := Preflight(config, data, resources, found.value, placement.value.selected);
      var plan := ResolvedPlan(data, resources, template.value, networks.value, found.value, hypervisor.value,
                               EffectiveStorageProfile(data), placement.value,
                               ResolveBootstrapProfile(config, hypervisor.value), preflight);
      if Passes(config, preflight) then Success(plan)
      else Failure(Refused(plan.(preflight := preflight.(status := Fail))))
  }

  // ---------------------------------------------------------------- the dry run

  datatype ExplainInput = ExplainInput(data: Validation.ProviderData, talosVersion: string, schematicId: string,
                                       architecture: string)

  datatype ExplainResult = ExplainResult(
    data: Validation.ProviderData,
    resources: Resources,
    template: int,
    networks: seq<int>,
    datastore: DatastoreRef,
    hypervisor: string,
    storageProfile: string,
    placement: PlacementDecision,
    bootstrapProfile: string,
    preflight: PreflightResult,
    image: ImageManager.Prediction)

  const NO_PREDICTION := ImageManager.Prediction(ImageManager.NO_IMAGE, ImageManager.NoAction, "", "", false, false)

  function ImageImportPreference(data: Validation.ProviderData): Option<bool> {
    if data.imagePolicyMode == "reuse-only" then Some(false)
    else if data.imagePolicyMode == "reuse-or-import" then Some(true)
    else None
  }

  /** The image part of the dry run; an image that is not found is no failure. */
  function Forecast(config: Config, inventory: Inventory, input: ExplainInput, data: Validation.ProviderData)
    : Result<ImageManager.Prediction, ErrorClass>
  {
    var talosVersion := Validation.Default(input.talosVersion, "v0.0.0");
    var schematicId := Validation.Default(input.schematicId, "explain");
    match inventory.imageName(talosVersion, schematicId, data.datastore)
    case Failure(e) => Failure(e)
    case Success(imageName) =>
      var request := ImageManager.Request(imageName, talosVersion, schematicId,
                                          Validation.Default(input.architecture, "amd64"), data.datastore,
                                          ImageImportPreference(data), 0, "", "", false);
      match ImageManager.Predict(inventory.images, config.images, request)
      case Success(p) => Success(p)
      case Failure(e) => if e == NotFound then Success(NO_PREDICTION) else Failure(e)
  }

  /** The dry run reports what preflight finds and refuses nothing. */
  function Explain(config: Config, inventory: Inventory, input: ExplainInput): Result<ExplainResult, PlanError> {
    match Validated(config, input.data)
    case Failure(e) => Failure(e)
    case Success(data) =>
      var resources := inventory.resources(data);
      if resources.Failure? then Failure(Client(resources.error)) else
      var template := inventory.template(data.templateName);
      if template.Failure? then Failure(Client(template.error)) else
      var networks := inventory.networks(NetworkNames(data));
      if networks.Failure? then Failure(Client(networks.error)) else
      var datastore := inventory.datastore(data.datastore);
      if datastore.Failure? then Failure(Client(datastore.error)) else
      var hypervisor := ResolveHypervisor(config, inventory);
      if hypervisor.Failure? then Failure(Client(hypervisor.error)) else
      var placement := inventory.placement(data.placement, hypervisor.value);
      if placement.Failure? then Failure(Client(placement.error)) else
      var preflight := Preflight(config, data, resources.value, datastore.value, placement.value.selected);
      var bootstrapProfile := ResolveBootstrapProfile(config, hypervisor.value);
      var image := Forecast(config, inventory, input, data);
      if image.Failure? then Failure(Client(image.error)) else
      Success(ExplainResult(data, resources.value, template.value, networks.value, datastore.value, hypervisor.value,
                            EffectiveStorageProfile(data), placement.value, bootstrapProfile, preflight, image.value))
  }
}
