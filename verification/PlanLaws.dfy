/** How the dry run relates to the plan, and which checks of the plan can still fail. */
module PlanLaws {
  import opened Wrappers
  import opened Text
  import opened OpenNebula
  import opened Placement
  import opened Plan
  import ImageManager
  import Validation
  import ValidationLaws

  /** There is a datastore to look for: the request names one, or the configuration does. */
  predicate NamesDatastore(config: Config, data: Validation.ProviderData) {
    Validation.Default(data.datastore, config.validation.defaultDatastore) != ""
  }

  /** The dry run shows what the plan has selected; the preflight is compared apart. */
  predicate SelectsAlike(plan: ResolvedPlan, explain: ExplainResult) {
    && explain.data == plan.data && explain.resources == plan.resources
    && explain.template == plan.template && explain.networks == plan.networks && explain.datastore == plan.datastore
    && explain.hypervisor == plan.hypervisor && explain.storageProfile == plan.storageProfile
    && explain.placement == plan.placement && explain.bootstrapProfile == plan.bootstrapProfile
  }

  lemma FilledDatastore(config: Config, data: Validation.ProviderData)
    ensures var filled := Validation.Filled(config.validation, data);
            && filled.datastore == Validation.Default(data.datastore, config.validation.defaultDatastore)
            && filled.(datastore := filled.datastore) == filled
  {
  }

  /**
   For a request that names a datastore and whose image forecast does not fail, the dry run selects
   what the plan selects. The plan is made exactly when the dry run succeeds and shows a preflight
   that passes, and refused exactly when it shows one that does not: a refused plan has the same
   errors and warnings, but always counts as failed, even where the dry run only warns.
   */
  lemma {:induction false} ExplainAgreesWithPlan(config: Config, inventory: Inventory, input: ExplainInput)
    requires NamesDatastore(config, input.data)
    requires Forecast(config, inventory, input, Validation.Filled(config.validation, input.data)).Success?
    ensures var plan := ResolveProvisionPlan(config, inventory, Some(input.data));
            var explain := Explain(config, inventory, input);
            && (plan.Success? <==> explain.Success? && Passes(config, explain.value.preflight))
            && (plan.Success? ==>
                  SelectsAlike(plan.value, explain.value) && explain.value.preflight == plan.value.preflight)
            && (plan.Failure? && plan.error.Refused? <==> explain.Success? && !Passes(config, explain.value.preflight))
            && (explain.Success? && plan.Failure? ==>
                  var refused := plan.error.plan;
                  && SelectsAlike(refused, explain.value)
                  && refused.preflight.errors == explain.value.preflight.errors
                  && refused.preflight.warnings == explain.value.preflight.warnings
                  && refused.preflight.status == Fail)
  {
    hide Validation.FirstProblem, Validation.Filled, Forecast, Preflight, Passes, ResolveHypervisor,
         ResolveBootstrapProfile, EffectiveStorageProfile, NetworkNames;
    FilledDatastore(config, input.data);
  }

  /** A refused plan and its dry run differ exactly when the warnings alone refuse it. */
  lemma {:induction false} RefusedForWarnings(config: Config, inventory: Inventory, input: ExplainInput)
    requires NamesDatastore(config, input.data)
    requires Forecast(config, inventory, input, Validation.Filled(config.validation, input.data)).Success?
    requires Explain(config, inventory, input).Success?
    ensures var plan := ResolveProvisionPlan(config, inventory, Some(input.data));
            var preflight := Explain(config, inventory, input).value.preflight;
            && (plan.Failure? ==> plan.error.Refused?)
            && (plan.Failure? && plan.error.plan.preflight != preflight <==>
                  config.failOnWarnings && preflight.errors == [] && preflight.warnings != [])
  {
    ExplainAgreesWithPlan(config, inventory, input);
    ExplainsPreflight(config, inventory, input);
    hide ResolveProvisionPlan, Explain, Preflight;
  }

  lemma ExplainsPreflight(config: Config, inventory: Inventory, input: ExplainInput)
    requires Explain(config, inventory, input).Success?
    ensures var preflight := Explain(config, inventory, input).value.preflight;
            preflight.status == if preflight.errors != [] then Fail else if preflight.warnings != [] then Warn else Pass
  {
    hide Validation.FirstProblem, Forecast;
  }

  /** Without a datastore the plan goes without one, while the dry run looks for one without a name. */
  lemma {:induction false} ExplainNeedsDatastore(config: Config, inventory: Inventory, input: ExplainInput)
    requires !NamesDatastore(config, input.data) && inventory.datastore("") == Failure(NotFound)
    ensures Explain(config, inventory, input).Failure?
    ensures var plan := ResolveProvisionPlan(config, inventory, Some(input.data));
            plan.Success? ==> plan.value.datastore == NO_DATASTORE && plan.value.data.datastore == ""
  {
    hide Validation.FirstProblem, Preflight, Passes;
    assert Validation.Filled(config.validation, input.data).datastore == "";
  }

  // ---------------------------------------------------------------- a plan without a datastore

  const HOST := HostInfo(1, "h", 1, "c", "kvm", [], true, true, 8, 0, 1024, 0, 0)

  function PlainConfig(): Config {
    Config(ValidationLaws.PlainConfig(),
           PlacementConfig(Scoring(1.0, 1.0, 1.0, 0.0, 0.0), "custom", (_, _) => true),
           ImageManager.Config(false, "", "", false, ""), "kvm", "lab", false)
  }

  function PlainInventory(): Inventory {
    Inventory(_ => Success(1), _ => Success([1]), _ => Failure(NotFound), Failure(NotFound),
              (_, _) => Success(PlacementDecision(HOST, [])), _ => Success(Resources("1", 1, 1024, 10)),
              (_, _, _) => Success("image"), NoWorld())
  }

  function NoWorld(): ImageManager.World {
    ImageManager.World((_, _) => Failure(NotFound), _ => Failure(NotFound), (_, _) => Failure(NotFound),
                       _ => Failure(NotFound), _ => Failure(NotFound), _ => Failure(NotFound), _ => Failure(NotFound),
                       (_, _) => Failure(NotFound), _ => Failure(NotFound), _ => Failure(NotFound), _ => None,
                       _ => Failure(NotFound), _ => None, path => path)
  }

  /** One such request: its plan is made, its dry run fails. */
  lemma PlanWithoutDatastore()
    ensures var data := ValidationLaws.PlainData("net", "", "auto", []);
            && !NamesDatastore(PlainConfig(), data)
            && ResolveProvisionPlan(PlainConfig(), PlainInventory(), Some(data)).Success?
            && Explain(PlainConfig(), PlainInventory(), ExplainInput(data, "", "", "")).Failure?
  {
    var data := ValidationLaws.PlainData("net", "", "auto", []);
    ValidationLaws.PlainDataIsValid();
    ExplainNeedsDatastore(PlainConfig(), PlainInventory(), ExplainInput(data, "", "", ""));
    var filled := Validation.Filled(PlainConfig().validation, data);
    assert filled.networkContextMode == "auto" && filled.placement == data.placement;
    var preflight := Preflight(PlainConfig(), filled, Resources("1", 1, 1024, 10), NO_DATASTORE, HOST);
    assert preflight == PreflightResult(Pass, [], []);
    hide Validation.FirstProblem, Preflight, Explain;
  }

  /**
   Behind validation and the choice of a host four checks of the six are left: the network zone has
   been filtered for, and denied manual networking has been refused.
   */
  lemma {:induction false} ChecksThatRemain(config: Config, data: Validation.ProviderData, hosts: seq<HostInfo>,
                                            hypervisor: string, resources: Resources,
                         datastore: DatastoreRef, selected: HostInfo, error: PreflightError)
    requires Validation.FirstProblem(config.validation, data) == None
    requires IsSelection(config.placement, data.placement, hypervisor, hosts, selected)
    requires error in ErrorsOf(config, Validation.Filled(config.validation, data), resources, datastore, selected)
    ensures error in {ResourcesIncomplete, NoHostSelected, ManualNotValidated, StorageIncompatible}
  {
    ErrorsAreFound(config, Validation.Filled(config.validation, data), resources, datastore, selected, error);
    hide ErrorsOf, ManualNetworksValidated, DatastoreSupports, Before, Score, HostMatchesTags;
  }

  lemma MadePlanPasses(config: Config, inventory: Inventory, asked: Option<Validation.ProviderData>)
    requires ResolveProvisionPlan(config, inventory, asked).Success?
    ensures var plan := ResolveProvisionPlan(config, inventory, asked).value;
            && plan.preflight == Preflight(config, plan.data, plan.resources, plan.datastore, plan.placement.selected)
            && Passes(config, plan.preflight)
  {
    hide Preflight, Passes, Validation.FirstProblem, Validation.Filled;
  }

  /** A plan that was made has a host with an id other than 0: host 0 is taken for no host. */
  lemma {:induction false} HostZeroIsRefused(config: Config, inventory: Inventory,
                                             asked: Option<Validation.ProviderData>)
    requires ResolveProvisionPlan(config, inventory, asked).Success?
    ensures ResolveProvisionPlan(config, inventory, asked).value.placement.selected.id != 0
  {
    MadePlanPasses(config, inventory, asked);
    hide ResolveProvisionPlan, ErrorsOf;
    var plan := ResolveProvisionPlan(config, inventory, asked).value;
    ErrorsAreFound(config, plan.data, plan.resources, plan.datastore, plan.placement.selected, NoHostSelected);
  }

  // ---------------------------------------------------------------- storage profiles

  lemma CapabilitiesOf(id: int, name: string, dsMad: string, tmMad: string)
    ensures var d := NormalizeDatastoreRef(id, name, dsMad, tmMad);
            var ds, tm := Lower(TrimSpace(dsMad)), Lower(TrimSpace(tmMad));
            && STORAGE_PROFILE_CEPH_RBD !in d.capabilities
            && (STORAGE_PROFILE_CEPHFS_CAPABLE in d.capabilities <==> Contains(ds, "cephfs"))
            && (d.cephBacked <==> Contains(ds, "ceph") || Contains(tm, "ceph"))
  {
    hide Contains, Lower, TrimSpace;
    var d := NormalizeDatastoreRef(id, name, dsMad, tmMad);
    assert |"root-disk"| != |"ceph-rbd"| && |"ceph-backed"| != |"ceph-rbd"| && |"cephfs-capable"| != |"ceph-rbd"|
        && |"ceph-rbd-compatible"| != |"ceph-rbd"| && |"local-root"| != |"ceph-rbd"|;
    assert |"root-disk"| != |"cephfs-capable"| && |"ceph-backed"| != |"cephfs-capable"|
        && |"ceph-rbd-compatible"| != |"cephfs-capable"| && |"local-root"| != |"cephfs-capable"|;
    assert forall c :: c in d.capabilities ==> c in {"root-disk", "ceph-backed", "cephfs-capable",
                                                     "ceph-rbd-compatible", "local-root"};
    if Contains(Lower(TrimSpace(dsMad)), "cephfs") {
      assert "cephfs-capable" in d.capabilities;
    }
  }

  /**
   Which datastores, as the client labels them, support which storage profile. None supports
   "ceph-rbd": the label for such datastores is "ceph-rbd-compatible".
   */
  lemma SupportedProfiles(id: int, name: string, dsMad: string, tmMad: string, profile: string, hostTags: seq<string>)
    ensures var d := NormalizeDatastoreRef(id, name, dsMad, tmMad);
            var ds, tm := Lower(TrimSpace(dsMad)), Lower(TrimSpace(tmMad));
            DatastoreSupports(d, profile, hostTags) <==>
              || profile == "" || profile == STORAGE_PROFILE_ANY
              || (profile == STORAGE_PROFILE_LOCAL_ROOT && !Contains(ds, "ceph") && !Contains(tm, "ceph"))
              || (profile == STORAGE_PROFILE_CEPHFS_CAPABLE && Contains(ds, "cephfs") && profile in hostTags)
  {
    CapabilitiesOf(id, name, dsMad, tmMad);
    hide NormalizeDatastoreRef, Contains, Lower, TrimSpace;
    assert |STORAGE_PROFILE_LOCAL_ROOT| == 10 && |STORAGE_PROFILE_CEPHFS_CAPABLE| == 14 &&
           |STORAGE_PROFILE_CEPH_RBD| == 8;
  }
}
