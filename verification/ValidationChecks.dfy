/**
 When validation refuses a request and for which problem, in terms of the request and the configuration as
 they were given, and what it has filled in when it does not.
 */
module ValidationChecks {
  import opened Wrappers
  import opened Text
  import opened Ipv4
  import opened Placement
  import opened Validation
  import opened ValidationLaws

  // ---------------------------------------------------------------- what is wrong with a request

  /** What is left of a request that keeps to the fields of v1alpha1. */
  function Stripped(data: ProviderData): ProviderData {
    data.(imagePolicyMode := "", deleteMode := "", additionalDisks := [],
          placement := PlacementRequest("", "", "", "", "", [], [], ""),
          networks := seq(|data.networks|, k requires 0 <= k < |data.networks| =>
                                             NetworkRef(data.networks[k].name, "", "", "")))
  }

  /** The mode a network asks for, itself or through its profile; likewise its name. */
  function AskedMode(config: Config, network: NetworkRef): string {
    if network.mode != "" || network.profile == "" then network.mode
    else match config.networkProfile(network.profile) case Some(profile) => profile.contextMode case None => ""
  }

  function AskedName(config: Config, network: NetworkRef): string {
    if network.name != "" || network.profile == "" then network.name
    else match config.networkProfile(network.profile) case Some(profile) => profile.networkName case None => ""
  }

  /** The mode of the request, before its networks are looked at. */
  function RequestMode(config: Config, data: ProviderData): string {
    if data.networkContextMode == "" then config.defaultNetworkContextMode else data.networkContextMode
  }

  /** The network is manual because a network asks for it, or the request does and no network asks for auto. */
  ghost predicate IsManual(config: Config, data: ProviderData) {
    || (exists k :: 0 <= k < |data.networks| && AskedMode(config, data.networks[k]) == "manual")
    || (RequestMode(config, data) == "manual" &&
        forall k :: 0 <= k < |data.networks| ==> AskedMode(config, data.networks[k]) != "auto")
  }

  predicate NetworkBreaks(config: Config, data: ProviderData, network: NetworkRef) {
    var profile := config.networkProfile(network.profile);
    || (network.profile != "" && profile == None)
    || (network.profile != "" && profile.Some? && RequestMode(config, data) == "manual" &&
        config.manualNetworkingMode == "require-validation" && !profile.value.manualValidated)
    || IsBlank(AskedName(config, network)) || !config.allowedNetwork(AskedName(config, network))
    || AskedMode(config, network) !in {"", "auto", "manual"}
  }

  /** Two networks ask for different modes, or one for another than the request. */
  ghost predicate ModesConflict(config: Config, data: ProviderData) {
    || (exists i, j ::
          && 0 <= i < |data.networks| && AskedMode(config, data.networks[i]) != ""
          && 0 <= j < |data.networks| && AskedMode(config, data.networks[j]) != ""
          && AskedMode(config, data.networks[i]) != AskedMode(config, data.networks[j]))
    || (data.networkContextMode != "" && exists i ::
          && 0 <= i < |data.networks| && AskedMode(config, data.networks[i]) != ""
          && AskedMode(config, data.networks[i]) != data.networkContextMode)
  }

  /** An address is read from its dotted form, with white space around, or from an IPv6 spelling of it. */
  lemma ParseIPv4Exactly(config: Config, s: string, ip: Address)
    ensures ParseIPv4(config, s) == Some(ip) <==>
      || TrimSpace(s) == ToString(ip)
      || ((forall other :: TrimSpace(s) != ToString(other)) && config.mappedAddress(TrimSpace(s)) == Some(ip))
  {
    hide TrimSpace, ToString, ParseDotted;
    forall other: Address ensures ParseDotted(TrimSpace(s)) == Some(other) <==> TrimSpace(s) == ToString(other) {
      ParseExactly(TrimSpace(s), other);
    }
    if ParseDotted(TrimSpace(s)).Some? {
      assert TrimSpace(s) == ToString(ParseDotted(TrimSpace(s)).value);
    }
  }

  /** An address without a mask, or one of the three in no spelling of an IPv4 address. */
  predicate NicBreaks(config: Config, nic: StaticNic) {
    && nic.ip != ""
    && (ParseIPv4(config, nic.ip) == None || nic.mask == "" || ParseIPv4(config, nic.mask) == None
        || (nic.network != "" && ParseIPv4(config, nic.network) == None))
  }

  /** `limit` is none when it is 0 or negative. */
  predicate Exceeds(n: int, limit: int) {
    n > limit > 0
  }

  predicate DiskBreaks(config: Config, disk: AdditionalDisk) {
    disk.sizeGiB <= 0 || Exceeds(disk.sizeGiB, config.maxAdditionalDiskGiB) || disk.format !in {"", "qcow2", "raw"}
  }

  /** What each problem means. */
  ghost predicate Breaks(config: Config, data: ProviderData, problem: Problem) {
    match problem
    case BadSchema =>
      data.schemaVersion !in {"", "v1alpha1", "v1alpha2"} ||
      (data.schemaVersion != "v1alpha2" && data != Stripped(data))
    case BadSizing =>
      if data.resources.Some? then data.flavor != "" || !config.allowExplicitResources
      else if data.flavor != "" then !config.hasFlavor(data.flavor)
      else config.defaultFlavor == "" || !config.hasFlavor(config.defaultFlavor)
    case BadTemplate => !config.allowedTemplate(if data.templateName != "" then data.templateName
                                                else config.templateName)
    case BadNetworks =>
      || data.networks == [] || RequestMode(config, data) !in {"auto", "manual"} || ModesConflict(config, data)
      || exists k :: 0 <= k < |data.networks| && NetworkBreaks(config, data, data.networks[k])
    case BadDatastore =>
      var datastore := if data.datastore != "" then data.datastore else config.defaultDatastore;
      datastore != "" && !config.allowedDatastore(datastore)
    case BadManualMode =>
      IsManual(config, data) && (data.staticNetwork == [] || config.manualNetworkingMode == "deny")
    case BadStaticNetwork =>
      IsManual(config, data) && exists k :: 0 <= k < |data.staticNetwork| && NicBreaks(config, data.staticNetwork[k])
    case BadFirmware =>
      && (data.secureBoot == Some(true) || (data.secureBoot == None && config.defaultSecureBoot))
      && (if data.firmwareMode != "" then data.firmwareMode else config.defaultFirmware) != "uefi"
    case BadGpu => data.gpuEnabled && !config.enableGpu
    case BadImagePolicy =>
      data.imagePolicyMode !in {"", "reuse-only", "reuse-or-import"} ||
      (data.imagePolicyMode == "reuse-or-import" && !config.importOnMiss)
    case BadPlacement => !config.allowedPlacement(data.placement)
    case BadDisks =>
      || Exceeds(|data.additionalDisks|, config.maxAdditionalDisks)
      || exists k :: 0 <= k < |data.additionalDisks| && DiskBreaks(config, data.additionalDisks[k])
    case BadLifecycle =>
      data.deleteMode !in {"", "normal", "terminate", "hard"} || (data.deleteMode == "hard" && !config.hardDelete)
  }

  const ORDER := [BadSchema, BadSizing, BadTemplate, BadNetworks, BadDatastore, BadManualMode, BadStaticNetwork,
                  BadFirmware, BadGpu, BadImagePolicy, BadPlacement, BadDisks, BadLifecycle]

  // ---------------------------------------------------------------- one check at a time

  /** A request keeps to v1alpha1 exactly when it has none of the newer fields. */
  lemma StrippedExactly(data: ProviderData)
    ensures HasV1Alpha2Fields(data) <==> data != Stripped(data)
  {
    if !HasV1Alpha2Fields(data) {
      assert Stripped(data).networks == data.networks;
    }
    if data == Stripped(data) {
      forall k | 0 <= k < |data.networks| ensures data.networks[k] == NetworkRef(data.networks[k].name, "", "", "") {
        assert data.networks[k] == Stripped(data).networks[k];
      }
    }
  }

  lemma SchemaExactly(config: Config, data: ProviderData)
    ensures SchemaOk(data) <==> !Breaks(config, data, BadSchema)
  {
    StrippedExactly(data);
    hide HasV1Alpha2Fields, Stripped;
  }

  lemma SizingExactly(config: Config, data: ProviderData)
    ensures SizingOk(config, data) <==> !Breaks(config, data, BadSizing)
  {
  }

  /** A filled network has the name and mode it asks for, and its own model or its profile's. */
  lemma FilledNetworkMeans(config: Config, network: NetworkRef)
    ensures var filled := FilledNetwork(config, network);
            && filled.name == AskedName(config, network) && filled.mode == AskedMode(config, network)
            && filled.profile == network.profile
            && (network.model != "" || network.profile == "" ==> filled.model == network.model)
            && (network.model == "" && network.profile != "" ==>
                  var profile := config.networkProfile(network.profile);
                  filled.model == if profile.Some? then profile.value.model else "")
  {
  }

  lemma NetworkExactly(config: Config, data: ProviderData, network: NetworkRef)
    ensures NetworkOk(config, CheckMode(config, data), network) <==> !NetworkBreaks(config, data, network)
  {
    FilledNetworkMeans(config, network);
    hide FilledNetwork, IsBlank, AskedName, AskedMode;
  }

  lemma ModesMean(config: Config, data: ProviderData, mode: string)
    ensures mode in Modes(FilledNetworks(config, data.networks)) <==>
      mode != "" && exists k :: 0 <= k < |data.networks| && AskedMode(config, data.networks[k]) == mode
  {
    hide AskedMode, FilledNetwork;
    var filled := FilledNetworks(config, data.networks);
    forall k | 0 <= k < |filled| ensures filled[k].mode == AskedMode(config, data.networks[k]) {
      FilledNetworkMeans(config, data.networks[k]);
    }
    if mode in Modes(filled) {
      var k :| 0 <= k < |filled| && filled[k].mode != "" && filled[k].mode == mode;
      assert AskedMode(config, data.networks[k]) == mode;
    } else if mode != "" {
      forall k | 0 <= k < |data.networks| ensures AskedMode(config, data.networks[k]) != mode {
        assert filled[k].mode == AskedMode(config, data.networks[k]);
      }
    }
  }

  lemma ModesExactly(config: Config, data: ProviderData)
    ensures ModesAgree(Modes(FilledNetworks(config, data.networks)), data.networkContextMode) <==>
      !ModesConflict(config, data)
  {
    hide AskedMode, FilledNetworks, Modes;
    var modes := Modes(FilledNetworks(config, data.networks));
    forall mode ensures mode in modes <==>
      mode != "" && exists k :: 0 <= k < |data.networks| && AskedMode(config, data.networks[k]) == mode
    {
      ModesMean(config, data, mode);
    }
    forall k | 0 <= k < |data.networks| && AskedMode(config, data.networks[k]) != ""
      ensures AskedMode(config, data.networks[k]) in modes
    {
    }
  }

  lemma NetworksExactly(config: Config, data: ProviderData)
    ensures NetworksOk(config, data) <==> !Breaks(config, data, BadNetworks)
  {
    hide FilledNetworks, Modes, NetworkOk, NetworkBreaks, ModesAgree, ModesConflict;
    ModesExactly(config, data);
    forall k | 0 <= k < |data.networks|
      ensures NetworkOk(config, CheckMode(config, data), data.networks[k]) <==>
        !NetworkBreaks(config, data, data.networks[k])
    {
      NetworkExactly(config, data, data.networks[k]);
    }
  }

  lemma ManualExactly(config: Config, data: ProviderData)
    ensures FinalMode(config, data) == "manual" <==> IsManual(config, data)
  {
    hide FilledNetworks, Modes, AskedMode;
    ModesMean(config, data, "manual");
    ModesMean(config, data, "auto");
  }

  lemma NicExactly(config: Config, nic: StaticNic)
    ensures NicOk(config, nic) <==> !NicBreaks(config, nic)
  {
    hide ParseIPv4;
  }

  lemma StaticExactly(config: Config, data: ProviderData)
    ensures (forall k :: 0 <= k < |data.staticNetwork| ==> NicOk(config, data.staticNetwork[k])) <==>
      !exists k :: 0 <= k < |data.staticNetwork| && NicBreaks(config, data.staticNetwork[k])
  {
    hide NicOk, NicBreaks;
    forall k | 0 <= k < |data.staticNetwork|
      ensures NicOk(config, data.staticNetwork[k]) <==> !NicBreaks(config, data.staticNetwork[k])
    {
      NicExactly(config, data.staticNetwork[k]);
    }
  }

  lemma DevicesExactly(config: Config, data: ProviderData)
    ensures DeviceProblem(config, data) ==
      if Breaks(config, data, BadFirmware) then Some(BadFirmware)
      else if Breaks(config, data, BadGpu) then Some(BadGpu)
      else None
  {
  }

  lemma DisksExactly(config: Config, data: ProviderData)
    ensures DisksOk(config, data.additionalDisks) <==> !Breaks(config, data, BadDisks)
  {
    forall k | 0 <= k < |data.additionalDisks|
      ensures DiskOk(config, data.additionalDisks[k]) <==> !DiskBreaks(config, data.additionalDisks[k])
    {
    }
    hide DiskOk, DiskBreaks;
  }

  lemma PoliciesExactly(config: Config, data: ProviderData)
    ensures PolicyProblem(config, data) ==
      if Breaks(config, data, BadImagePolicy) then Some(BadImagePolicy)
      else if Breaks(config, data, BadPlacement) then Some(BadPlacement)
      else if Breaks(config, data, BadDisks) then Some(BadDisks)
      else if Breaks(config, data, BadLifecycle) then Some(BadLifecycle)
      else None
  {
    DisksExactly(config, data);
    hide DisksOk;
  }

  lemma OthersExactly(config: Config, data: ProviderData)
    ensures var filled := Filled(config, data);
            && (config.allowedTemplate(filled.templateName) <==> !Breaks(config, data, BadTemplate))
            && (filled.datastore != "" && !config.allowedDatastore(filled.datastore) <==>
                  Breaks(config, data, BadDatastore))
            && (filled.networkContextMode == "manual"
                && (|data.staticNetwork| == 0 || config.manualNetworkingMode == MANUAL_DENY) <==>
                  Breaks(config, data, BadManualMode))
            && (filled.networkContextMode == "manual"
                && (exists k :: 0 <= k < |data.staticNetwork| && !NicOk(config, data.staticNetwork[k])) <==>
                  Breaks(config, data, BadStaticNetwork))
  {
    ManualExactly(config, data);
    StaticExactly(config, data);
    hide FinalMode, IsManual, NicOk, NicBreaks, FilledNetworks, FilledNics, FilledDisks;
  }

  // ---------------------------------------------------------------- all of them

  lemma OrderIs()
    ensures |ORDER| == 13
    ensures ORDER[0] == BadSchema && ORDER[1] == BadSizing && ORDER[2] == BadTemplate && ORDER[3] == BadNetworks
    ensures ORDER[4] == BadDatastore && ORDER[5] == BadManualMode && ORDER[6] == BadStaticNetwork
    ensures ORDER[7] == BadFirmware && ORDER[8] == BadGpu && ORDER[9] == BadImagePolicy
    ensures ORDER[10] == BadPlacement && ORDER[11] == BadDisks && ORDER[12] == BadLifecycle
  {
  }

  lemma EveryProblemIsListed(problem: Problem)
    ensures problem in ORDER
  {
    OrderIs();
    hide ORDER;
    match problem
    case _ =>
  }

  /** `i` is the place of the first problem, behind the last place if there is none. */
  lemma PlaceOfFirst(config: Config, data: ProviderData) returns (i: nat)
    ensures i <= |ORDER| && forall k :: 0 <= k < i ==> !Breaks(config, data, ORDER[k])
    ensures if i == |ORDER| then FirstProblem(config, data) == None
            else FirstProblem(config, data) == Some(ORDER[i]) && Breaks(config, data, ORDER[i])
  {
    SchemaExactly(config, data);
    SizingExactly(config, data);
    NetworksExactly(config, data);
    DevicesExactly(config, data);
    PoliciesExactly(config, data);
    OthersExactly(config, data);
    OrderIs();
    hide SchemaOk, SizingOk, NetworksOk, NicOk, DeviceProblem, PolicyProblem, Breaks, Filled, ORDER;
    i := if Breaks(config, data, BadSchema) then 0
         else if Breaks(config, data, BadSizing) then 1
         else if Breaks(config, data, BadTemplate) then 2
         else if Breaks(config, data, BadNetworks) then 3
         else if Breaks(config, data, BadDatastore) then 4
         else if Breaks(config, data, BadManualMode) then 5
         else if Breaks(config, data, BadStaticNetwork) then 6
         else if Breaks(config, data, BadFirmware) then 7
         else if Breaks(config, data, BadGpu) then 8
         else if Breaks(config, data, BadImagePolicy) then 9
         else if Breaks(config, data, BadPlacement) then 10
         else if Breaks(config, data, BadDisks) then 11
         else if Breaks(config, data, BadLifecycle) then 12
         else 13;
  }

  /** Validation refuses a request exactly when something is wrong, for the first thing in order that is. */
  lemma {:induction false} FirstProblemIsFirst(config: Config, data: ProviderData)
    ensures FirstProblem(config, data) == None <==> forall problem :: !Breaks(config, data, problem)
    ensures FirstProblem(config, data).Some? ==> exists i ::
      0 <= i < |ORDER| && FirstProblem(config, data) == Some(ORDER[i]) && Breaks(config, data, ORDER[i])
      && forall k :: 0 <= k < i ==> !Breaks(config, data, ORDER[k])
  {
    hide FirstProblem, Breaks, ORDER;
    var i := PlaceOfFirst(config, data);
    if i == |ORDER| {
      forall problem: Problem ensures !Breaks(config, data, problem) {
        EveryProblemIsListed(problem);
        var k :| 0 <= k < |ORDER| && ORDER[k] == problem;
      }
    }
  }

  // ---------------------------------------------------------------- what is filled in

  /** A value that was given stays, and a missing one is the default. */
  predicate FillsGap(given: string, default: string, result: string) {
    (given != "" ==> result == given) && (given == "" ==> result == default)
  }

  predicate FillsGapIn(given: Option<bool>, default: bool, result: Option<bool>) {
    (given.Some? ==> result == given) && (given == None ==> result == Some(default))
  }

  /** Every gap is filled with the default for it; nothing that was asked for changes, but for the spelling "normal". */
  lemma {:induction false} GapsAreFilled(config: Config, data: ProviderData)
    ensures var filled := Filled(config, data);
            && FillsGap(data.schemaVersion, "v1alpha1", filled.schemaVersion)
            && FillsGap(data.flavor, if data.resources == None then config.defaultFlavor else "", filled.flavor)
            && FillsGap(data.templateName, config.templateName, filled.templateName)
            && FillsGap(data.datastore, config.defaultDatastore, filled.datastore)
            && FillsGap(data.firmwareMode, config.defaultFirmware, filled.firmwareMode)
            && FillsGapIn(data.secureBoot, config.defaultSecureBoot, filled.secureBoot)
            && FillsGapIn(data.graphicsEnabled, config.defaultGraphicsEnabled, filled.graphicsEnabled)
            && FillsGap(data.imagePolicyMode, if config.importOnMiss then "reuse-or-import" else "reuse-only",
                        filled.imagePolicyMode)
            && (data.deleteMode != "normal" ==>
                  FillsGap(data.deleteMode, if config.hardDelete then "hard" else "terminate", filled.deleteMode))
            && (data.deleteMode == "normal" ==> filled.deleteMode == "terminate")
            && filled.resources == data.resources && filled.rootDiskGiB == data.rootDiskGiB
            && filled.gpuEnabled == data.gpuEnabled && filled.placement == data.placement
  {
    hide FilledNetworks, FilledNics, FilledDisks, FinalMode;
  }

  lemma NicIsFilled(config: Config, nic: StaticNic)
    ensures var filled := FilledNic(config, nic);
            && filled == nic.(network := filled.network)
            && (nic.ip == "" || nic.network != "" ==> filled == nic)
  {
    hide ParseIPv4, ToString;
  }

  /** Only a manual network that has an address and no network gets one. */
  ghost predicate NicKeeps(config: Config, data: ProviderData, given: StaticNic, result: StaticNic) {
    && result == given.(network := result.network)
    && (given.ip == "" || given.network != "" || !IsManual(config, data) ==> result == given)
  }

  lemma ListsAreFilled(config: Config, data: ProviderData)
    ensures var filled := Filled(config, data);
            && |filled.networks| == |data.networks|
            && |filled.additionalDisks| == |data.additionalDisks| && |filled.staticNetwork| == |data.staticNetwork|
            && (forall k :: 0 <= k < |data.networks| ==> filled.networks[k] == FilledNetwork(config, data.networks[k]))
            && (forall k :: 0 <= k < |data.additionalDisks| ==>
                  && filled.additionalDisks[k].name == data.additionalDisks[k].name
                  && filled.additionalDisks[k].sizeGiB == data.additionalDisks[k].sizeGiB
                  && FillsGap(data.additionalDisks[k].format, "qcow2", filled.additionalDisks[k].format))
            && (forall k :: 0 <= k < |data.staticNetwork| ==>
                  NicKeeps(config, data, data.staticNetwork[k], filled.staticNetwork[k]))
  {
    ManualExactly(config, data);
    hide FilledNetwork, FinalMode, IsManual, FilledNic;
    forall k | 0 <= k < |data.staticNetwork|
      ensures NicKeeps(config, data, data.staticNetwork[k], Filled(config, data).staticNetwork[k])
    {
      NicIsFilled(config, data.staticNetwork[k]);
    }
  }

  // ---------------------------------------------------------------- what it comes to

  /** What a network of accepted data is: named, allowed, and of the final mode or of none. */
  lemma AcceptedNetworks(config: Config, data: ProviderData)
    requires FirstProblem(config, data) == None
    ensures var filled := Filled(config, data);
            && filled.networks != [] && filled.networkContextMode in {"auto", "manual"}
            && (filled.networkContextMode == "manual" <==> IsManual(config, data))
            && forall k :: 0 <= k < |filled.networks| ==>
                 && !IsBlank(filled.networks[k].name) && config.allowedNetwork(filled.networks[k].name)
                 && filled.networks[k].mode in {"", filled.networkContextMode}
  {
    hide FilledNetwork, FinalMode, IsManual, Modes, IsBlank, Filled, NetworksOk, FirstProblem;
    ManualExactly(config, data);
    FirstProblemIsFirst(config, data);
    ListsAreFilled(config, data);
    NetworksExactly(config, data);
    ModesAgreeWithFinal(config, data);
    FinalIsMode(config, data);
    assert !Breaks(config, data, BadNetworks);
    forall k | 0 <= k < |data.networks|
      ensures !IsBlank(FilledNetwork(config, data.networks[k]).name)
           && config.allowedNetwork(FilledNetwork(config, data.networks[k]).name)
    {
      FilledNetworkMeans(config, data.networks[k]);
      assert !NetworkBreaks(config, data, data.networks[k]);
    }
  }

  lemma FinalIsMode(config: Config, data: ProviderData)
    ensures Filled(config, data).networkContextMode == FinalMode(config, data)
  {
  }

  /** What data says about the machine keeps to the configuration. */
  ghost predicate MachineComplies(config: Config, data: ProviderData) {
    && data.schemaVersion in {"v1alpha1", "v1alpha2"}
    && (if data.resources.Some? then data.flavor == "" && config.allowExplicitResources
        else data.flavor != "" && config.hasFlavor(data.flavor))
    && config.allowedTemplate(data.templateName)
    && (data.datastore != "" ==> config.allowedDatastore(data.datastore))
    && (data.secureBoot == Some(true) ==> data.firmwareMode == "uefi")
    && (data.gpuEnabled ==> config.enableGpu)
  }

  /** So does what it says about policies. */
  ghost predicate PoliciesComply(config: Config, data: ProviderData) {
    && (data.networkContextMode == "manual" ==>
          data.staticNetwork != [] && config.manualNetworkingMode != "deny")
    && (data.imagePolicyMode == "reuse-only" || (data.imagePolicyMode == "reuse-or-import" && config.importOnMiss))
    && config.allowedPlacement(data.placement)
    && (data.deleteMode == "terminate" || (data.deleteMode == "hard" && config.hardDelete))
    && !Exceeds(|data.additionalDisks|, config.maxAdditionalDisks)
    && forall disk <- data.additionalDisks :: !DiskBreaks(config, disk) && disk.format != ""
  }

  lemma NothingBreaks(config: Config, data: ProviderData, problem: Problem)
    requires FirstProblem(config, data) == None
    ensures !Breaks(config, data, problem)
  {
    FirstProblemIsFirst(config, data);
    hide FirstProblem, Breaks;
  }

  lemma AcceptedDisks(config: Config, data: ProviderData)
    requires FirstProblem(config, data) == None
    ensures var disks := Filled(config, data).additionalDisks;
            && !Exceeds(|disks|, config.maxAdditionalDisks)
            && forall disk <- disks :: !DiskBreaks(config, disk) && disk.format != ""
  {
    NothingBreaks(config, data, BadDisks);
    ListsAreFilled(config, data);
    hide Filled, FirstProblem, NicKeeps, FilledNetwork;
    var filled := Filled(config, data);
    forall k | 0 <= k < |filled.additionalDisks|
      ensures !DiskBreaks(config, filled.additionalDisks[k]) && filled.additionalDisks[k].format != ""
    {
      assert !DiskBreaks(config, data.additionalDisks[k]);
    }
  }

  lemma MachineIsCompliant(config: Config, data: ProviderData)
    requires FirstProblem(config, data) == None
    ensures MachineComplies(config, Filled(config, data))
  {
    NothingBreaks(config, data, BadSchema);
    NothingBreaks(config, data, BadSizing);
    NothingBreaks(config, data, BadTemplate);
    NothingBreaks(config, data, BadDatastore);
    NothingBreaks(config, data, BadFirmware);
    NothingBreaks(config, data, BadGpu);
    GapsAreFilled(config, data);
    hide Filled, FirstProblem, Stripped;
  }

  lemma PoliciesAreCompliant(config: Config, data: ProviderData)
    requires FirstProblem(config, data) == None
    ensures PoliciesComply(config, Filled(config, data))
  {
    NothingBreaks(config, data, BadManualMode);
    NothingBreaks(config, data, BadImagePolicy);
    NothingBreaks(config, data, BadPlacement);
    NothingBreaks(config, data, BadLifecycle);
    GapsAreFilled(config, data);
    ListsAreFilled(config, data);
    AcceptedNetworks(config, data);
    AcceptedDisks(config, data);
    hide Filled, FirstProblem, IsManual, FilledNetwork, DiskBreaks, Exceeds, NicKeeps;
  }

  /** Accepted data keeps to the configuration in all it says, defaults included. */
  lemma AcceptedIsCompliant(config: Config, data: ProviderData)
    requires FirstProblem(config, data) == None
    ensures MachineComplies(config, Filled(config, data)) && PoliciesComply(config, Filled(config, data))
  {
    MachineIsCompliant(config, data);
    PoliciesAreCompliant(config, data);
    hide MachineComplies, PoliciesComply;
  }
}
