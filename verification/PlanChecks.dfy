/** What the checks on a plan find, and what a plan is, in terms of the request, the configuration and OpenNebula. */
module PlanChecks {
  import opened Wrappers
  import opened OpenNebula
  import opened Placement
  import opened Plan
  import ImageManager
  import Validation

  // ---------------------------------------------------------------- preflight

  /** A network whose profile is missing, unknown or not validated for manual networking. */
  predicate NotValidated(config: Config, network: Validation.NetworkRef) {
    var profile := config.validation.networkProfile(network.profile);
    network.profile == "" || profile.None? || !profile.value.manualValidated
  }

  predicate StorageFits(profile: string, datastore: DatastoreRef, host: HostInfo) {
    || profile in {"", "any"}
    || (profile == "local-root" && !datastore.cephBacked)
    || (profile in {"ceph-rbd", "cephfs-capable"} && profile in datastore.capabilities && profile in host.tags)
  }

  function Rank(error: PreflightError): nat {
    match error
    case ResourcesIncomplete => 0
    case NoHostSelected => 1
    case ManualNotValidated => 2
    case ManualDenied => 3
    case StorageIncompatible => 4
    case OutsideNetworkZone => 5
  }

  lemma StorageExactly(data: Validation.ProviderData, datastore: DatastoreRef, host: HostInfo)
    ensures DatastoreSupports(datastore, EffectiveStorageProfile(data), host.tags) <==>
      StorageFits(data.placement.storageProfile, datastore, host)
    ensures EffectiveStorageProfile(data) ==
      if data.placement.storageProfile != "" then data.placement.storageProfile else "any"
  {
  }

  lemma ManualExactly(config: Config, data: Validation.ProviderData)
    ensures ManualNetworksValidated(config.validation, data) <==>
      !exists k :: 0 <= k < |data.networks| && NotValidated(config, data.networks[k])
  {
    if ManualNetworksValidated(config.validation, data) {
    } else {
      var k :| 0 <= k < |data.networks| && !(
          && data.networks[k].profile != ""
          && config.validation.networkProfile(data.networks[k].profile).Some?
          && config.validation.networkProfile(data.networks[k].profile).value.manualValidated);
      assert NotValidated(config, data.networks[k]);
    }
  }

  /** What each error means. */
  ghost predicate Means(config: Config, data: Validation.ProviderData, resources: Resources, datastore: DatastoreRef,
                        selected: HostInfo, error: PreflightError)
  {
    var manual, policy := data.networkContextMode == "manual", config.validation.manualNetworkingMode;
    match error
    case ResourcesIncomplete => !(resources.vcpu > 0 && resources.memoryMiB > 0 && resources.rootDiskGiB > 0)
    case NoHostSelected => selected.id == 0
    case ManualNotValidated =>
      && manual && policy == "require-validation"
      && exists k :: 0 <= k < |data.networks| && NotValidated(config, data.networks[k])
    case ManualDenied => manual && policy == "deny"
    case StorageIncompatible => !StorageFits(data.placement.storageProfile, datastore, selected)
    case OutsideNetworkZone =>
      data.placement.networkZone != "" && !config.placement.hostInNetworkZone(data.placement.networkZone, selected.name)
  }

  lemma FindsExactly(config: Config, data: Validation.ProviderData, resources: Resources, datastore: DatastoreRef,
                     selected: HostInfo, error: PreflightError)
    ensures Finds(config, data, resources, datastore, selected, error) <==>
      Means(config, data, resources, datastore, selected, error)
  {
    StorageExactly(data, datastore, selected);
    ManualExactly(config, data);
    hide DatastoreSupports, EffectiveStorageProfile, ManualNetworksValidated, StorageFits, NotValidated;
  }

  ghost predicate IsSorted(errors: seq<PreflightError>, below: nat) {
    && (forall i :: 0 <= i < |errors| ==> Rank(errors[i]) < below)
    && forall i, j :: 0 <= i < j < |errors| ==> Rank(errors[i]) < Rank(errors[j])
  }

  lemma OneMoreError(errors: seq<PreflightError>, found: bool, error: PreflightError)
    requires IsSorted(errors, Rank(error))
    ensures IsSorted(errors + When(found, error), Rank(error) + 1)
  {
    hide Rank;
  }

  lemma FirstError(found: bool, error: PreflightError)
    ensures IsSorted(When(found, error), Rank(error) + 1)
  {
  }

  lemma SortedErrors(a: bool, b: bool, c: bool, d: bool, e: bool, f: bool)
    ensures IsSorted(When(a, ResourcesIncomplete) + When(b, NoHostSelected) + When(c, ManualNotValidated) +
                     When(d, ManualDenied) + When(e, StorageIncompatible) + When(f, OutsideNetworkZone), 6)
  {
    hide When, IsSorted;
    FirstError(a, ResourcesIncomplete);
    var errors := When(a, ResourcesIncomplete);
    OneMoreError(errors, b, NoHostSelected);
    errors := errors + When(b, NoHostSelected);
    OneMoreError(errors, c, ManualNotValidated);
    errors := errors + When(c, ManualNotValidated);
    OneMoreError(errors, d, ManualDenied);
    errors := errors + When(d, ManualDenied);
    OneMoreError(errors, e, StorageIncompatible);
    errors := errors + When(e, StorageIncompatible);
    OneMoreError(errors, f, OutsideNetworkZone);
  }

  lemma ErrorsAreSorted(config: Config, data: Validation.ProviderData, resources: Resources, datastore: DatastoreRef,
                        selected: HostInfo)
    ensures IsSorted(ErrorsOf(config, data, resources, datastore, selected), 6)
  {
    hide Finds, When, IsSorted;
    SortedErrors(Finds(config, data, resources, datastore, selected, ResourcesIncomplete),
                 Finds(config, data, resources, datastore, selected, NoHostSelected),
                 Finds(config, data, resources, datastore, selected, ManualNotValidated),
                 Finds(config, data, resources, datastore, selected, ManualDenied),
                 Finds(config, data, resources, datastore, selected, StorageIncompatible),
                 Finds(config, data, resources, datastore, selected, OutsideNetworkZone));
  }

  /**
   Preflight reports exactly the errors there are, each once, in the order of the checks. It fails with an
   error, warns with a warning alone, and warns of manual networking where the policy is to warn.
   */
  lemma {:induction false} PreflightExactly(config: Config, data: Validation.ProviderData, resources: Resources,
                                            datastore: DatastoreRef, selected: HostInfo)
    ensures var result := Preflight(config, data, resources, datastore, selected);
            && (forall error :: error in result.errors <==>
                  Means(config, data, resources, datastore, selected, error))
            && (forall i, j :: 0 <= i < j < |result.errors| ==> Rank(result.errors[i]) < Rank(result.errors[j]))
            && (result.warnings == [ManualNotFullyValidated] <==>
                  data.networkContextMode == "manual" && config.validation.manualNetworkingMode == "warn")
            && (result.warnings == [] || result.warnings == [ManualNotFullyValidated])
            && (result.status == Fail <==> result.errors != [])
            && (result.status == Pass <==> result.errors == [] && result.warnings == [])
  {
    ErrorsAreSorted(config, data, resources, datastore, selected);
    forall error ensures error in ErrorsOf(config, data, resources, datastore, selected) <==>
        Means(config, data, resources, datastore, selected, error)
    {
      ErrorsAreFound(config, data, resources, datastore, selected, error);
      FindsExactly(config, data, resources, datastore, selected, error);
    }
    hide ErrorsOf, Means, Rank;
  }

  // ---------------------------------------------------------------- profiles and defaults

  /**
   The bootstrap profile is the configured one, if it is one of the three; else lab where machines are
   emulated, by the hypervisor or by the environment, and production elsewhere.
   */
  lemma BootstrapProfileExactly(config: Config, hypervisor: string)
    ensures var profile := ResolveBootstrapProfile(config, hypervisor);
            var emulated := hypervisor == "qemu" || config.placement.environmentProfile == "lab-qemu";
            && profile in {"lab", "production", "custom"}
            && (profile == "custom" <==> config.bootstrapProfile == "custom")
            && (profile == "lab" <==>
                  config.bootstrapProfile == "lab" ||
                  (config.bootstrapProfile !in {"production", "custom"} && emulated))
  {
    assert |"lab"| == 3 && |"production"| == 10 && |"custom"| == 6;
  }

  /** The hypervisor is the configured one, or what OpenNebula says when that is left to it. */
  lemma HypervisorExactly(config: Config, inventory: Inventory)
    ensures var hypervisor := ResolveHypervisor(config, inventory);
            && (config.hypervisor in {"", "auto"} ==> hypervisor == inventory.hypervisor)
            && (config.hypervisor in {"kvm", "qemu"} ==> hypervisor == Success(config.hypervisor))
            && (config.hypervisor !in {"", "auto", "kvm", "qemu"} ==> hypervisor == Failure(Policy))
  {
    assert "auto"[0] == 'a' && "kvm"[0] == 'k' && "qemu"[0] == 'q';
  }

  /** Behind validation the request itself says whether a missing image may be imported. */
  lemma ImportIsDecided(config: Config, data: Validation.ProviderData)
    requires Validation.FirstProblem(config.validation, data) == None
    ensures var filled := Validation.Filled(config.validation, data);
            ImageImportPreference(filled) == Some(filled.imagePolicyMode == "reuse-or-import")
  {
    hide Validation.SchemaOk, Validation.SizingOk, Validation.NetworksOk, Validation.FilledNetworks,
         Validation.FilledNics, Validation.FilledDisks, Validation.FinalMode, Validation.DisksOk, Validation.NicOk;
    assert |"reuse-only"| != |"reuse-or-import"|;
  }

  /** The dry run forecasts for the version, schematic and architecture asked for, or for ones that stand for none. */
  lemma ForecastFillsGaps(config: Config, inventory: Inventory, input: ExplainInput, data: Validation.ProviderData)
    ensures var filled := input.(
              talosVersion := if input.talosVersion == "" then "v0.0.0" else input.talosVersion,
              schematicId := if input.schematicId == "" then "explain" else input.schematicId,
              architecture := if input.architecture == "" then "amd64" else input.architecture);
            Forecast(config, inventory, input, data) == Forecast(config, inventory, filled, data)
  {
    hide ImageManager.Predict;
  }

  /** With nothing left out, the forecast is for the image of that name; one that cannot be had is no failure. */
  lemma ForecastExactly(config: Config, inventory: Inventory, input: ExplainInput, data: Validation.ProviderData)
    requires input.talosVersion != "" && input.schematicId != "" && input.architecture != ""
    requires inventory.imageName(input.talosVersion, input.schematicId, data.datastore).Success?
    ensures var imageName := inventory.imageName(input.talosVersion, input.schematicId, data.datastore).value;
            var request := ImageManager.Request(imageName, input.talosVersion, input.schematicId, input.architecture,
                                                data.datastore, ImageImportPreference(data), 0, "", "", false);
            var p := ImageManager.Predict(inventory.images, config.images, request);
            && (p.Success? || p.error != NotFound ==> Forecast(config, inventory, input, data) == p)
            && (p == Failure(NotFound) ==>
                  var none := Forecast(config, inventory, input, data);
                  none.Success? && !none.value.importRequired && none.value.action.NoAction?
                    && none.value.image.id == 0)
  {
    hide ImageManager.Predict;
  }

  // ---------------------------------------------------------------- the plan

  lemma NamesInOrder(data: Validation.ProviderData)
    ensures var names := NetworkNames(data);
            |names| == |data.networks| && forall k :: 0 <= k < |names| ==> names[k] == data.networks[k].name
  {
  }

  /** Everything in the plan was looked up for the filled request, and nothing was found against it. */
  ghost predicate IsPlan(config: Config, inventory: Inventory, asked: Validation.ProviderData, plan: ResolvedPlan) {
    && Validation.FirstProblem(config.validation, asked) == None
    && plan.data == Validation.Filled(config.validation, asked)
    && inventory.resources(plan.data) == Success(plan.resources)
    && inventory.template(plan.data.templateName) == Success(plan.template)
    && inventory.networks(NetworkNames(plan.data)) == Success(plan.networks)
    && (plan.data.datastore != "" ==> inventory.datastore(plan.data.datastore) == Success(plan.datastore))
    && (plan.data.datastore == "" ==> plan.datastore == NO_DATASTORE)
    && ResolveHypervisor(config, inventory) == Success(plan.hypervisor)
    && inventory.placement(plan.data.placement, plan.hypervisor) == Success(plan.placement)
    && plan.storageProfile == EffectiveStorageProfile(plan.data)
    && plan.bootstrapProfile == ResolveBootstrapProfile(config, plan.hypervisor)
    && plan.preflight == Preflight(config, plan.data, plan.resources, plan.datastore, plan.placement.selected)
    && plan.preflight.errors == [] && (config.failOnWarnings ==> plan.preflight.warnings == [])
  }

  /** There is at most one plan for a request, and resolving the request comes to it whenever there is one. */
  lemma {:induction false} PlanExactly(config: Config, inventory: Inventory, asked: Validation.ProviderData,
                                       plan: ResolvedPlan)
    ensures ResolveProvisionPlan(config, inventory, Some(asked)) == Success(plan) <==>
      IsPlan(config, inventory, asked, plan)
  {
    FilledTwice(config, asked);
    StatusOf(config, plan);
    hide Validation.FirstProblem, Validation.Filled, ErrorsOf, ResolveHypervisor, ResolveBootstrapProfile,
         EffectiveStorageProfile, NetworkNames, Warns;
  }

  lemma FilledTwice(config: Config, data: Validation.ProviderData)
    ensures var filled := Validation.Filled(config.validation, data);
            && Validation.Default(filled.datastore, config.validation.defaultDatastore) == filled.datastore
            && filled.(datastore := filled.datastore) == filled
  {
  }

  lemma StatusOf(config: Config, plan: ResolvedPlan)
    ensures var preflight := Preflight(config, plan.data, plan.resources, plan.datastore, plan.placement.selected);
            Passes(config, preflight) <==>
              preflight.errors == [] && (config.failOnWarnings ==> preflight.warnings == [])
  {
    hide ErrorsOf;
  }
}
