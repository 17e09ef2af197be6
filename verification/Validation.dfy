/**
 Validation and defaulting of a request's provider data, in place
 (`internal/pkg/provider/validation.go`, `deriveNetworkCIDR` in `provision.go`).
 */
module Validation {
  import opened Wrappers
  import opened Text
  import opened Ipv4
  import opened Placement

  const SCHEMA_V1ALPHA1 := "v1alpha1"
  const SCHEMA_V1ALPHA2 := "v1alpha2"
  const MANUAL_REQUIRE_VALIDATION := "require-validation"
  const MANUAL_DENY := "deny"

  datatype NetworkRef = NetworkRef(name: string, profile: string, mode: string, model: string)

  datatype StaticNic = StaticNic(name: string, ip: string, mask: string, network: string)

  datatype AdditionalDisk = AdditionalDisk(name: string, sizeGiB: int, format: string)

  datatype ResourceOverrides = ResourceOverrides(cpu: string, vcpu: int, memoryMiB: int, rootDiskGiB: int)

  datatype ProviderData = ProviderData(
    schemaVersion: string,
    flavor: string,
    resources: Option<ResourceOverrides>,
    rootDiskGiB: int,
    templateName: string,
    datastore: string,
    networks: seq<NetworkRef>,
    networkContextMode: string,
    staticNetwork: seq<StaticNic>,
    firmwareMode: string,
    secureBoot: Option<bool>,
    graphicsEnabled: Option<bool>,
    gpuEnabled: bool,
    imagePolicyMode: string,
    placement: PlacementRequest,
    additionalDisks: seq<AdditionalDisk>,
    deleteMode: string)

  datatype NetworkProfile = NetworkProfile(networkName: string, model: string, contextMode: string,
                                           manualValidated: bool)

  /** The runtime configuration; its lists of what is allowed appear as predicates. */
  datatype Config = Config(
    defaultFlavor: string,
    allowExplicitResources: bool,
    hasFlavor: string -> bool,
    templateName: string,
    allowedTemplate: string -> bool,
    defaultNetworkContextMode: string,
    networkProfile: string -> Option<NetworkProfile>,
    allowedNetwork: string -> bool,
    manualNetworkingMode: string,
    defaultDatastore: string,
    allowedDatastore: string -> bool,
    defaultFirmware: string,
    defaultSecureBoot: bool,
    defaultGraphicsEnabled: bool,
    enableGpu: bool,
    importOnMiss: bool,
    allowedPlacement: PlacementRequest -> bool,
    maxAdditionalDisks: int,
    maxAdditionalDiskGiB: int,
    hardDelete: bool,
    // IPv6 spellings of IPv4 addresses, which Go's parser accepts beside the dotted one
    mappedAddress: string -> Option<Address>)

  datatype Problem =
    | BadSchema | BadSizing | BadTemplate | BadNetworks | BadDatastore | BadManualMode | BadStaticNetwork
    | BadFirmware | BadGpu | BadImagePolicy | BadPlacement | BadDisks | BadLifecycle

  function Default(value: string, default: string): string {
    if value == "" then default else value
  }

  // ---------------------------------------------------------------- schema and sizing

  predicate HasV1Alpha2Fields(data: ProviderData) {
    || data.imagePolicyMode != "" || data.deleteMode != "" || |data.additionalDisks| > 0
    || data.placement.host != "" || data.placement.cluster != "" || data.placement.vmGroup != "" ||
       data.placement.role != ""
    || data.placement.storageProfile != "" || |data.placement.requiredHostTags| > 0
    || |data.placement.excludedHostTags| > 0 || data.placement.networkZone != ""
    || exists k :: 0 <= k < |data.networks|
         && (data.networks[k].profile != "" || data.networks[k].mode != "" || data.networks[k].model != "")
  }

  function SchemaOf(data: ProviderData): string {
    Default(data.schemaVersion, SCHEMA_V1ALPHA1)
  }

  predicate SchemaOk(data: ProviderData) {
    SchemaOf(data) == SCHEMA_V1ALPHA2 || (SchemaOf(data) == SCHEMA_V1ALPHA1 && !HasV1Alpha2Fields(data))
  }

  function FlavorOf(config: Config, data: ProviderData): string {
    if data.flavor == "" && data.resources.None? then config.defaultFlavor else data.flavor
  }

  predicate SizingOk(config: Config, data: ProviderData) {
    var flavor := FlavorOf(config, data);
    && (flavor != "" <==> data.resources.None?)
    && (flavor == "" ==> config.allowExplicitResources)
    && (flavor != "" ==> config.hasFlavor(flavor))
  }

  // ---------------------------------------------------------------- networks

  function ProfileOf(config: Config, network: NetworkRef): NetworkProfile
    requires config.networkProfile(network.profile).Some?
  {
    config.networkProfile(network.profile).value
  }

  function FilledNetwork(config: Config, network: NetworkRef): NetworkRef {
    if network.profile == "" || config.networkProfile(network.profile).None? then network
    else
      var profile := ProfileOf(config, network);
      network.(name := Default(network.name, profile.networkName), model := Default(network.model, profile.model),
               mode := Default(network.mode, profile.contextMode))
  }

  predicate ProfileUnvalidated(config: Config, network: NetworkRef) {
    network.profile != "" && config.networkProfile(network.profile).Some? && !ProfileOf(config, network).manualValidated
  }

  /** `checkMode` is the mode before the networks have had their say. */
  predicate NetworkOk(config: Config, checkMode: string, network: NetworkRef) {
    var filled := FilledNetwork(config, network);
    && (network.profile != "" ==> config.networkProfile(network.profile).Some?)
    && !(checkMode == "manual" && config.manualNetworkingMode == MANUAL_REQUIRE_VALIDATION &&
         ProfileUnvalidated(config, network))
    && !IsBlank(filled.name) && config.allowedNetwork(filled.name)
    && filled.mode in {"", "auto", "manual"}
  }

  function FilledNetworks(config: Config, networks: seq<NetworkRef>): seq<NetworkRef> {
    seq(|networks|, k requires 0 <= k < |networks| => FilledNetwork(config, networks[k]))
  }

  function Modes(networks: seq<NetworkRef>): set<string> {
    set k | 0 <= k < |networks| && networks[k].mode != "" :: networks[k].mode
  }

  function CheckMode(config: Config, data: ProviderData): string {
    Default(data.networkContextMode, config.defaultNetworkContextMode)
  }

  /** The networks agree on a mode that the request does not contradict. */
  predicate ModesAgree(modes: set<string>, original: string) {
    (forall m, m' :: m in modes && m' in modes ==> m == m') && (original != "" ==> modes <= {original})
  }

  predicate NetworksOk(config: Config, data: ProviderData) {
    && |data.networks| > 0
    && (forall k :: 0 <= k < |data.networks| ==> NetworkOk(config, CheckMode(config, data), data.networks[k]))
    && CheckMode(config, data) in {"auto", "manual"}
    && ModesAgree(Modes(FilledNetworks(config, data.networks)), data.networkContextMode)
  }

  /** The one mode of the networks, if there is one. */
  function FinalMode(config: Config, data: ProviderData): string {
    var modes := Modes(FilledNetworks(config, data.networks));
    if "manual" in modes then "manual" else if "auto" in modes then "auto" else CheckMode(config, data)
  }

  // ---------------------------------------------------------------- static addresses

  function ParseIPv4(config: Config, s: string): Option<Address> {
    var trimmed := TrimSpace(s);
    if ParseDotted(trimmed).Some? then ParseDotted(trimmed) else config.mappedAddress(trimmed)
  }

  predicate NicOk(config: Config, nic: StaticNic) {
    nic.ip != "" ==>
      && ParseIPv4(config, nic.ip).Some?
      && nic.mask != "" && ParseIPv4(config, nic.mask).Some?
      && (nic.network != "" ==> ParseIPv4(config, nic.network).Some?)
  }

  function FilledNic(config: Config, nic: StaticNic): StaticNic {
    if nic.ip == "" || nic.network != "" || ParseIPv4(config, nic.ip).None? ||
        ParseIPv4(config, nic.mask).None? then nic
    else nic.(network := ToString(Masked(ParseIPv4(config, nic.ip).value, ParseIPv4(config, nic.mask).value)))
  }

  function FilledNics(config: Config, nics: seq<StaticNic>): seq<StaticNic> {
    seq(|nics|, k requires 0 <= k < |nics| => FilledNic(config, nics[k]))
  }

  // ---------------------------------------------------------------- disks and the rest

  predicate DiskOk(config: Config, disk: AdditionalDisk) {
    && disk.sizeGiB > 0
    && (config.maxAdditionalDiskGiB > 0 ==> disk.sizeGiB <= config.maxAdditionalDiskGiB)
    && disk.format in {"", "qcow2", "raw"}
  }

  predicate DisksOk(config: Config, disks: seq<AdditionalDisk>) {
    && (config.maxAdditionalDisks > 0 ==> |disks| <= config.maxAdditionalDisks)
    && forall k :: 0 <= k < |disks| ==> DiskOk(config, disks[k])
  }

  function FilledDisk(disk: AdditionalDisk): AdditionalDisk {
    disk.(format := Default(disk.format, "qcow2"))
  }

  function FilledDisks(disks: seq<AdditionalDisk>): seq<AdditionalDisk> {
    seq(|disks|, k requires 0 <= k < |disks| => FilledDisk(disks[k]))
  }

  function SecureBootOf(config: Config, data: ProviderData): bool {
    data.secureBoot.GetOr(config.defaultSecureBoot)
  }

  function ImagePolicyOf(config: Config, data: ProviderData): string {
    Default(data.imagePolicyMode, if config.importOnMiss then "reuse-or-import" else "reuse-only")
  }

  function DeleteModeOf(config: Config, data: ProviderData): string {
    var mode := Default(data.deleteMode, if config.hardDelete then "hard" else "terminate");
    if mode == "normal" then "terminate" else mode
  }

  // ---------------------------------------------------------------- validation as a whole

  /** The data with every default and derived value filled in. */
  function Filled(config: Config, data: ProviderData): ProviderData {
    data.(schemaVersion := SchemaOf(data),
          flavor := FlavorOf(config, data),
          templateName := Default(data.templateName, config.templateName),
          networks := FilledNetworks(config, data.networks),
          networkContextMode := FinalMode(config, data),
          datastore := Default(data.datastore, config.defaultDatastore),
          staticNetwork := if FinalMode(config, data) == "manual" then FilledNics(config, data.staticNetwork)
              else data.staticNetwork,
          firmwareMode := Default(data.firmwareMode, config.defaultFirmware),
          secureBoot := Some(SecureBootOf(config, data)),
          graphicsEnabled := Some(data.graphicsEnabled.GetOr(config.defaultGraphicsEnabled)),
          imagePolicyMode := ImagePolicyOf(config, data),
          additionalDisks := FilledDisks(data.additionalDisks),
          deleteMode := DeleteModeOf(config, data))
  }

  function DeviceProblem(config: Config, data: ProviderData): Option<Problem> {
    if SecureBootOf(config, data) && Default(data.firmwareMode, config.defaultFirmware) != "uefi" then Some(BadFirmware)
    else if data.gpuEnabled && !config.enableGpu then Some(BadGpu)
    else None
  }

  function PolicyProblem(config: Config, data: ProviderData): Option<Problem> {
    var imagePolicy, deleteMode := ImagePolicyOf(config, data), DeleteModeOf(config, data);
    if !(imagePolicy == "reuse-only" || (imagePolicy == "reuse-or-import" && config.importOnMiss)) then
        Some(BadImagePolicy)
    else if !config.allowedPlacement(data.placement) then Some(BadPlacement)
    else if !DisksOk(config, data.additionalDisks) then Some(BadDisks)
    else if !(deleteMode == "terminate" || (deleteMode == "hard" && config.hardDelete)) then Some(BadLifecycle)
    else None
  }

  /** The first thing found wrong, in the order in which things are looked at. */
  function FirstProblem(config: Config, data: ProviderData): Option<Problem> {
    var filled := Filled(config, data);
    if !SchemaOk(data) then Some(BadSchema)
    else if !SizingOk(config, data) then Some(BadSizing)
    else if !config.allowedTemplate(filled.templateName) then Some(BadTemplate)
    else if !NetworksOk(config, data) then Some(BadNetworks)
    else if filled.datastore != "" && !config.allowedDatastore(filled.datastore) then Some(BadDatastore)
    else if filled.networkContextMode == "manual"
            && (|data.staticNetwork| == 0 || config.manualNetworkingMode == MANUAL_DENY)
    then Some(BadManualMode)
    else if filled.networkContextMode == "manual"
            && exists k :: 0 <= k < |data.staticNetwork| && !NicOk(config, data.staticNetwork[k])
    then Some(BadStaticNetwork)
    else if DeviceProblem(config, data).Some? then DeviceProblem(config, data)
    else PolicyProblem(config, data)
  }

  class Validator {
    const config: Config
    var data: ProviderData

    constructor (config: Config, data: ProviderData)
      ensures this.config == config && this.data == data
    {
      this.config, this.data := config, data;
    }

    /** The body of the loop over the networks. */
    method NormalizeNetwork(asked: NetworkRef, checkMode: string) returns (r: Option<NetworkRef>)
      ensures r == if NetworkOk(config, checkMode, asked) then Some(FilledNetwork(config, asked)) else None
    {
      var network := asked;
      if network.profile != "" {
        var profile := config.networkProfile(network.profile);
        if profile.None? {
          return None;
        }
        if network.name == "" {
          network := network.(name := profile.value.networkName);
        }
        if network.model == "" {
          network := network.(model := profile.value.model);
        }
        if network.mode == "" {
          network := network.(mode := profile.value.contextMode);
        }
        if checkMode == "manual" && config.manualNetworkingMode == MANUAL_REQUIRE_VALIDATION &&
            !profile.value.manualValidated {
          return None;
        }
      }
      if IsBlank(network.name) || !config.allowedNetwork(network.name) {
        return None;
      }
      if network.mode != "" && network.mode != "auto" && network.mode != "manual" {
        return None;
      }
      r := Some(network);
    }

    method NormalizeNetworks() returns (ok: bool)
      modifies this
      ensures ok <==> NetworksOk(config, old(data))
      ensures ok ==> data == old(data).(networks := FilledNetworks(config, old(data).networks),
                                        networkContextMode := FinalMode(config, old(data)))
    {
      hide FilledNetworks, Modes, FilledNetwork, NetworkOk, IsBlank, ModesAgree;
      ghost var asked := data.networks;
      var originalMode := data.networkContextMode;
      if data.networkContextMode == "" {
        data := data.(networkContextMode := config.defaultNetworkContextMode);
      }
      if |data.networks| == 0 {
        return false;
      }
      var resolvedModes: set<string> := {};
      var networks: seq<NetworkRef> := [];
      NoNetworks(config, asked);
      for index := 0 to |data.networks|
        invariant networks == FilledNetworks(config, asked[..index])
        invariant resolvedModes == Modes(FilledNetworks(config, asked[..index]))
        invariant forall k :: 0 <= k < index ==> NetworkOk(config, CheckMode(config, old(data)), asked[k])
        invariant data == old(data).(networkContextMode := CheckMode(config, old(data)))
      {
        var network := NormalizeNetwork(data.networks[index], data.networkContextMode);
        if network.None? {
          return false;
        }
        if network.value.mode != "" {
          resolvedModes := resolvedModes + {network.value.mode};
        }
        networks := networks + [network.value];
        OneMoreNetwork(config, asked, index);
      }
      assert asked[..|asked|] == asked;
      data := data.(networks := networks);
      if data.networkContextMode != "auto" && data.networkContextMode != "manual" {
        return false;
      }
      ModesAreKnown(config, asked, CheckMode(config, old(data)));
      ok := ResolveMode(resolvedModes, originalMode);
    }

    /** The end of `normalizeNetworks`: the networks agree on one mode, and with what was asked for. */
    method ResolveMode(resolvedModes: set<string>, originalMode: string) returns (ok: bool)
      requires resolvedModes <= {"auto", "manual"}
      modifies this
      ensures ok <==> ModesAgree(resolvedModes, originalMode)
      ensures ok ==> data == old(data).(networkContextMode :=
        if "manual" in resolvedModes then "manual" else if "auto" in resolvedModes then "auto"
        else old(data).networkContextMode)
    {
      if |resolvedModes| > 1 {
        TwoModesDiffer(resolvedModes);
        return false;
      }
      if resolvedModes != {} {
        var mode :| mode in resolvedModes;
        OneMode(resolvedModes, mode);
        if originalMode != "" && originalMode != mode {
          return false;
        }
        data := data.(networkContextMode := mode);
      }
      ok := true;
    }

    method NormalizeStaticNetwork() returns (ok: bool)
      modifies this
      ensures ok <==> (data.networkContextMode == "manual" ==>
                         forall k :: 0 <= k < |old(data).staticNetwork| ==> NicOk(config, old(data).staticNetwork[k]))
      ensures data.networkContextMode == old(data).networkContextMode
      ensures ok ==> data == old(data).(staticNetwork := if old(data).networkContextMode == "manual"
                                                         then FilledNics(config, old(data).staticNetwork)
                                                             else old(data).staticNetwork)
    {
      if data.networkContextMode != "manual" {
        return true;
      }
      var nics := data.staticNetwork;
      for index := 0 to |nics|
        invariant |nics| == |old(data).staticNetwork| && data == old(data)
        invariant forall k :: 0 <= k < index ==>
          NicOk(config, old(data).staticNetwork[k]) && nics[k] == FilledNic(config, old(data).staticNetwork[k])
        invariant forall k :: index <= k < |nics| ==> nics[k] == old(data).staticNetwork[k]
      {
        var nic := nics[index];
        if nic.ip == "" {
          continue;
        }
        var ip := ParseIPv4(config, nic.ip);
        var mask := ParseIPv4(config, nic.mask);
        if ip.None? || nic.mask == "" || mask.None? {
          return false;
        }
        if nic.network != "" {
          if ParseIPv4(config, nic.network).None? {
            return false;
          }
          continue;
        }
        nics := nics[index := nic.(network := ToString(Masked(ip.value, mask.value)))];
      }
      data := data.(staticNetwork := nics);
      ok := true;
    }

    method ValidateAdditionalDisks() returns (ok: bool)
      modifies this
      ensures ok <==> DisksOk(config, old(data).additionalDisks)
      ensures ok ==> data == old(data).(additionalDisks := FilledDisks(old(data).additionalDisks))
    {
      var disks := data.additionalDisks;
      if config.maxAdditionalDisks > 0 && |disks| > config.maxAdditionalDisks {
        return false;
      }
      for index := 0 to |disks|
        invariant |disks| == |old(data).additionalDisks| && data == old(data)
        invariant forall k :: 0 <= k < index ==>
          DiskOk(config, old(data).additionalDisks[k]) && disks[k] == FilledDisk(old(data).additionalDisks[k])
        invariant forall k :: index <= k < |disks| ==> disks[k] == old(data).additionalDisks[k]
      {
        var disk := disks[index];
        if disk.sizeGiB <= 0 || (config.maxAdditionalDiskGiB > 0 && disk.sizeGiB > config.maxAdditionalDiskGiB) {
          return false;
        }
        if disk.format == "" {
          disks := disks[index := disk.(format := "qcow2")];
        }
        if disks[index].format != "qcow2" && disks[index].format != "raw" {
          return false;
        }
      }
      data := data.(additionalDisks := disks);
      ok := true;
    }

    /** `ValidateProviderData`; after a problem the data may be partly filled in. */
    method Validate() returns (problem: Option<Problem>)
      modifies this
      ensures problem == FirstProblem(config, old(data))
      ensures problem == None ==> data == Filled(config, old(data))
    {
      hide NetworksOk, FilledNetworks, FinalMode, FilledNics, NicOk, DisksOk, FilledDisks, HasV1Alpha2Fields;
      data := data.(schemaVersion := Default(data.schemaVersion, SCHEMA_V1ALPHA1));
      if data.schemaVersion != SCHEMA_V1ALPHA1 && data.schemaVersion != SCHEMA_V1ALPHA2 {
        return Some(BadSchema);
      }
      SameFields(old(data), data);
      if data.schemaVersion == SCHEMA_V1ALPHA1 && HasV1Alpha2Fields(data) {
        return Some(BadSchema);
      }
      if data.flavor == "" && data.resources.None? {
        data := data.(flavor := config.defaultFlavor);
      }
      if data.flavor == "" && data.resources.None? {
        return Some(BadSizing);
      }
      if data.flavor != "" && data.resources.Some? {
        return Some(BadSizing);
      }
      if data.flavor == "" && !config.allowExplicitResources {
        return Some(BadSizing);
      }
      if data.flavor != "" && !config.hasFlavor(data.flavor) {
        return Some(BadSizing);
      }
      data := data.(templateName := Default(data.templateName, config.templateName));
      if !config.allowedTemplate(data.templateName) {
        return Some(BadTemplate);
      }
      ghost var before := data;
      SameNetworks(config, old(data), data);
      var ok := NormalizeNetworks();
      if !ok {
        return Some(BadNetworks);
      }
      data := data.(datastore := Default(data.datastore, config.defaultDatastore));
      problem := ValidateRest(old(data));
    }

    /** What follows the datastore default. `asked` is what validation began with. */
    method ValidateRest(ghost asked: ProviderData) returns (problem: Option<Problem>)
      requires SchemaOk(asked) && SizingOk(config, asked) && NetworksOk(config, asked)
      requires config.allowedTemplate(Default(asked.templateName, config.templateName))
      requires data == asked.(schemaVersion := SchemaOf(asked), flavor := FlavorOf(config, asked),
                              templateName := Default(asked.templateName, config.templateName),
                              networks := FilledNetworks(config, asked.networks),
                              networkContextMode := FinalMode(config, asked),
                              datastore := Default(asked.datastore, config.defaultDatastore))
      modifies this
      ensures problem == FirstProblem(config, asked)
      ensures problem == None ==> data == Filled(config, asked)
    {
      hide NetworksOk, FilledNetworks, FinalMode, FilledNics, NicOk, DisksOk, FilledDisks, SchemaOk, SizingOk,
           SchemaOf, FlavorOf, PolicyProblem, ImagePolicyOf, DeleteModeOf, DeviceProblem, SecureBootOf;
      if data.datastore != "" && !config.allowedDatastore(data.datastore) {
        return Some(BadDatastore);
      }
      if data.networkContextMode == "manual"
         && (|data.staticNetwork| == 0 || config.manualNetworkingMode == MANUAL_DENY) {
        return Some(BadManualMode);
      }
      var ok := NormalizeStaticNetwork();
      if !ok {
        return Some(BadStaticNetwork);
      }
      SameDevices(config, asked, data);
      problem := ValidateDevices();
      if problem.Some? {
        return;
      }
      SamePolicies(config, asked, data);
      problem := ValidatePolicies();
    }

    /** Firmware, graphics and GPU. */
    method ValidateDevices() returns (problem: Option<Problem>)
      modifies this
      ensures problem == DeviceProblem(config, old(data))
      ensures problem == None ==>
        data == old(data).(firmwareMode := Default(old(data).firmwareMode, config.defaultFirmware),
                           secureBoot := Some(SecureBootOf(config, old(data))),
                           graphicsEnabled := Some(old(data).graphicsEnabled.GetOr(config.defaultGraphicsEnabled)))
    {
      data := data.(firmwareMode := Default(data.firmwareMode, config.defaultFirmware));
      data := data.(secureBoot := Some(data.secureBoot.GetOr(config.defaultSecureBoot)));
      data := data.(graphicsEnabled := Some(data.graphicsEnabled.GetOr(config.defaultGraphicsEnabled)));
      if data.secureBoot == Some(true) && data.firmwareMode != "uefi" {
        return Some(BadFirmware);
      }
      if data.gpuEnabled && !config.enableGpu {
        return Some(BadGpu);
      }
      problem := None;
    }

    /** Image policy, placement, disks and lifecycle. */
    method ValidatePolicies() returns (problem: Option<Problem>)
      modifies this
      ensures problem == PolicyProblem(config, old(data))
      ensures problem == None ==>
        data == old(data).(imagePolicyMode := ImagePolicyOf(config, old(data)),
                           additionalDisks := FilledDisks(old(data).additionalDisks),
                           deleteMode := DeleteModeOf(config, old(data)))
    {
      hide DisksOk, FilledDisks;
      data := data.(imagePolicyMode := Default(data.imagePolicyMode,
                                               if config.importOnMiss then "reuse-or-import" else "reuse-only"));
      if data.imagePolicyMode != "reuse-only" && (data.imagePolicyMode != "reuse-or-import" || !config.importOnMiss) {
        return Some(BadImagePolicy);
      }
      if !config.allowedPlacement(data.placement) {
        return Some(BadPlacement);
      }
      var ok := ValidateAdditionalDisks();
      if !ok {
        return Some(BadDisks);
      }
      if data.deleteMode == "" {
        data := data.(deleteMode := if config.hardDelete then "hard" else "terminate");
      }
      if data.deleteMode == "normal" {
        data := data.(deleteMode := "terminate");
      }
      if data.deleteMode != "terminate" && (data.deleteMode != "hard" || !config.hardDelete) {
        return Some(BadLifecycle);
      }
      problem := None;
    }
  }

  lemma SameFields(data: ProviderData, data': ProviderData)
    requires data' == data.(schemaVersion := data'.schemaVersion)
    ensures HasV1Alpha2Fields(data) == HasV1Alpha2Fields(data')
  {
  }

  lemma SameDevices(config: Config, data: ProviderData, data': ProviderData)
    requires data'.firmwareMode == data.firmwareMode && data'.secureBoot == data.secureBoot &&
             data'.gpuEnabled == data.gpuEnabled
    ensures DeviceProblem(config, data) == DeviceProblem(config, data') &&
            SecureBootOf(config, data) == SecureBootOf(config, data')
  {
  }

  lemma SamePolicies(config: Config, data: ProviderData, data': ProviderData)
    requires data'.imagePolicyMode == data.imagePolicyMode && data'.placement == data.placement
    requires data'.additionalDisks == data.additionalDisks && data'.deleteMode == data.deleteMode
    ensures PolicyProblem(config, data) == PolicyProblem(config, data')
    ensures ImagePolicyOf(config, data) == ImagePolicyOf(config, data') &&
            DeleteModeOf(config, data) == DeleteModeOf(config, data')
  {
  }

  lemma SameNetworks(config: Config, data: ProviderData, data': ProviderData)
    requires data'.networks == data.networks && data'.networkContextMode == data.networkContextMode
    ensures NetworksOk(config, data) == NetworksOk(config, data') && FinalMode(config, data) == FinalMode(config, data')
  {
  }

  lemma OneMoreNetwork(config: Config, networks: seq<NetworkRef>, index: nat)
    requires index < |networks|
    ensures var filled := FilledNetwork(config, networks[index]);
            && FilledNetworks(config, networks[..index + 1]) == FilledNetworks(config, networks[..index]) + [filled]
            && Modes(FilledNetworks(config, networks[..index + 1]))
               == Modes(FilledNetworks(config, networks[..index])) + if filled.mode == "" then {} else {filled.mode}
  {
    var before, after := FilledNetworks(config, networks[..index]), FilledNetworks(config, networks[..index + 1]);
    assert after == before + [FilledNetwork(config, networks[index])];
    forall m | m in Modes(before) ensures m in Modes(after) {
      var k :| 0 <= k < |before| && before[k].mode != "" && before[k].mode == m;
      assert after[k] == before[k];
    }
    assert after[index] == FilledNetwork(config, networks[index]);
  }

  lemma NoNetworks(config: Config, networks: seq<NetworkRef>)
    ensures FilledNetworks(config, networks[..0]) == [] && Modes([]) == {}
  {
  }

  lemma ModesAreKnown(config: Config, networks: seq<NetworkRef>, checkMode: string)
    requires forall k :: 0 <= k < |networks| ==> NetworkOk(config, checkMode, networks[k])
    ensures Modes(FilledNetworks(config, networks)) <= {"auto", "manual"}
  {
    var filled := FilledNetworks(config, networks);
    forall m | m in Modes(filled) ensures m in {"auto", "manual"} {
      var k :| 0 <= k < |filled| && filled[k].mode != "" && filled[k].mode == m;
      assert NetworkOk(config, checkMode, networks[k]);
    }
  }

  lemma TwoModesDiffer(modes: set<string>)
    requires |modes| > 1
    ensures exists m, m' :: m in modes && m' in modes && m != m'
  {
    var m :| m in modes;
    assert |modes - {m}| > 0;
    var m' :| m' in modes - {m};
  }

  lemma OneMode(modes: set<string>, mode: string)
    requires |modes| <= 1 && mode in modes
    ensures modes == {mode}
  {
    assert |modes - {mode}| == 0;
  }
}
