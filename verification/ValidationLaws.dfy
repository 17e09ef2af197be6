/** What a successful validation leaves behind, and what a second one makes of it. */
module ValidationLaws {
  import opened Wrappers
  import opened Text
  import opened Naming
  import opened Ipv4
  import opened Placement
  import opened Validation

  // ---------------------------------------------------------------- derived networks

  lemma TrimKeeps(s: string)
    requires s != "" && !IsSpace(s[0]) && !IsSpace(s[|s| - 1])
    ensures TrimSpace(s) == s
  {
  }

  lemma AddressIsTrimmed(ip: Address)
    ensures TrimSpace(ToString(ip)) == ToString(ip)
  {
    DecimalDenotes(ip.a as nat);
    DecimalDenotes(ip.d as nat);
    var first, last := Decimal(ip.a as nat), Decimal(ip.d as nat);
    hide Decimal;
    var s := ToString(ip);
    assert s[0] == first[0] && s[|s| - 1] == last[|last| - 1];
    assert IsDigit(first[0]) && IsDigit(last[|last| - 1]);
    TrimKeeps(s);
  }

  /** A derived network is the address under the mask, in a spelling that reads back as just that. */
  lemma DerivedNetwork(config: Config, nic: StaticNic)
    requires nic.ip != "" && nic.network == "" && NicOk(config, nic)
    ensures var network := Masked(ParseIPv4(config, nic.ip).value, ParseIPv4(config, nic.mask).value);
            var filled := FilledNic(config, nic);
            && filled == nic.(network := ToString(network))
            && filled.network != ""
            && ParseIPv4(config, filled.network) == Some(network)
  {
    hide ParseDotted, ToString;
    var network := Masked(ParseIPv4(config, nic.ip).value, ParseIPv4(config, nic.mask).value);
    AddressIsTrimmed(network);
    ParseToString(network);
  }

  lemma FilledNicStays(config: Config, nic: StaticNic)
    requires NicOk(config, nic)
    ensures NicOk(config, FilledNic(config, nic)) && FilledNic(config, FilledNic(config, nic)) == FilledNic(config, nic)
  {
    if nic.ip != "" && nic.network == "" {
      DerivedNetwork(config, nic);
    }
    hide ParseIPv4;
  }

  // ---------------------------------------------------------------- network modes

  /** The modes of the networks and of the request agree after a successful validation. */
  lemma ModesAgreeWithFinal(config: Config, data: ProviderData)
    requires NetworksOk(config, data)
    ensures var filled := Filled(config, data);
            && filled.networkContextMode in {"auto", "manual"}
            && (data.networkContextMode != "" ==> filled.networkContextMode == data.networkContextMode)
            && Modes(filled.networks) <= {filled.networkContextMode}
            && (forall k :: 0 <= k < |filled.networks| ==>
                  filled.networks[k].mode != "" ==> filled.networks[k].mode == filled.networkContextMode)
  {
    var networks := FilledNetworks(config, data.networks);
    ModesAreKnown(config, data.networks, CheckMode(config, data));
    hide FilledNetworks, NetworkOk;
    forall k | 0 <= k < |networks| && networks[k].mode != "" ensures networks[k].mode in Modes(networks) {
    }
  }

  // ---------------------------------------------------------------- examples

  /** A configuration that allows everything and knows one network profile, "p", with manual mode. */
  function PlainConfig(): Config {
    Config("small", false, _ => true, "t", _ => true, "auto",
           name => if name == "p" then Some(NetworkProfile("net", "", "manual", false)) else None,
           _ => true, MANUAL_REQUIRE_VALIDATION, "", _ => true, "uefi", false, true, false, false, _ => true, 0, 0,
           false, _ => None)
  }

  /** A complete request of schema v1alpha2 with one network. */
  function PlainData(network: string, profile: string, mode: string, nics: seq<StaticNic>): ProviderData {
    ProviderData(SCHEMA_V1ALPHA2, "small", None, 0, "t", "", [NetworkRef(network, profile, "", "")], mode, nics, "uefi",
                 Some(false), Some(true), false, "reuse-only", PlacementRequest("", "", "", "", "", [], [], ""), [],
                 "terminate")
  }

  lemma NamesAreNotBlank()
    ensures !IsBlank("net")
  {
    TrimKeeps("net");
  }

  lemma PlainDataIsValid()
    ensures FirstProblem(PlainConfig(), PlainData("net", "", "auto", [])) == None
    ensures Filled(PlainConfig(), PlainData("net", "", "auto", [])).networkContextMode == "auto"
  {
    NamesAreNotBlank();
    var config, data := PlainConfig(), PlainData("net", "", "auto", []);
    assert FilledNetworks(config, data.networks) == data.networks;
    assert Modes(data.networks) == {};
    hide TrimSpace, IsBlank;
    assert NetworkOk(config, "auto", data.networks[0]);
  }

  // ---------------------------------------------------------------- validating again

  lemma FilledNetworkStays(config: Config, network: NetworkRef)
    ensures FilledNetwork(config, FilledNetwork(config, network)) == FilledNetwork(config, network)
  {
  }

  lemma FilledNetworksStay(config: Config, networks: seq<NetworkRef>)
    ensures FilledNetworks(config, FilledNetworks(config, networks)) == FilledNetworks(config, networks)
  {
    forall k | 0 <= k < |networks|
      ensures FilledNetwork(config, FilledNetworks(config, networks)[k]) == FilledNetworks(config, networks)[k]
    {
      FilledNetworkStays(config, networks[k]);
    }
  }

  lemma {:induction false} FilledNicsStay(config: Config, nics: seq<StaticNic>)
    requires forall k :: 0 <= k < |nics| ==> NicOk(config, nics[k])
    ensures FilledNics(config, FilledNics(config, nics)) == FilledNics(config, nics)
    ensures forall k :: 0 <= k < |nics| ==> NicOk(config, FilledNics(config, nics)[k])
  {
    hide FilledNic, NicOk;
    forall k | 0 <= k < |nics|
      ensures FilledNic(config, FilledNics(config, nics)[k]) == FilledNics(config, nics)[k]
           && NicOk(config, FilledNics(config, nics)[k])
    {
      FilledNicStays(config, nics[k]);
    }
  }

  /** Manual networking was reached only through the networks, past the check of their profiles. */
  predicate SlippedPastCheck(config: Config, data: ProviderData) {
    && FinalMode(config, data) == "manual" && config.manualNetworkingMode == MANUAL_REQUIRE_VALIDATION
    && exists k :: 0 <= k < |data.networks| && ProfileUnvalidated(config, data.networks[k])
  }

  /** Data that slips past: a profile brings in manual mode, which the check never saw. */
  lemma SomeSlipPast()
    ensures var data := PlainData("", "p", "", [StaticNic("eth0", "", "", "")]);
            && FirstProblem(PlainConfig(), data) == None
            && SlippedPastCheck(PlainConfig(), data)
            && FirstProblem(PlainConfig(), Filled(PlainConfig(), data)) == Some(BadNetworks)
  {
    NamesAreNotBlank();
    var config, data := PlainConfig(), PlainData("", "p", "", [StaticNic("eth0", "", "", "")]);
    var filled := FilledNetworks(config, data.networks);
    assert filled == [NetworkRef("net", "p", "manual", "")];
    assert Modes(filled) == {"manual"} by {
      assert filled[0].mode == "manual";
    }
    hide TrimSpace, IsBlank;
    assert NetworkOk(config, "auto", data.networks[0]);
    assert NicOk(config, data.staticNetwork[0]);
    ValidationIsANormalForm(config, data);
  }

  lemma {:induction false} NetworksAgain(config: Config, data: ProviderData, again: ProviderData)
    requires NetworksOk(config, data)
    requires again.networks == FilledNetworks(config, data.networks) &&
             again.networkContextMode == FinalMode(config, data)
    ensures NetworksOk(config, again) <==> !SlippedPastCheck(config, data)
    ensures FinalMode(config, again) == FinalMode(config, data)
  {
    ModesAgreeWithFinal(config, data);
    FilledNetworksStay(config, data.networks);
    assert Modes(FilledNetworks(config, again.networks)) == Modes(again.networks);
    assert CheckMode(config, again) == FinalMode(config, data);
    forall k | 0 <= k < |data.networks|
      ensures NetworkOk(config, CheckMode(config, again), again.networks[k])
         <==> !(CheckMode(config, again) == "manual" && config.manualNetworkingMode == MANUAL_REQUIRE_VALIDATION
                && ProfileUnvalidated(config, data.networks[k]))
    {
      hide IsBlank;
      assert NetworkOk(config, CheckMode(config, data), data.networks[k]);
      FilledNetworkStays(config, data.networks[k]);
    }
    hide NetworkOk, FilledNetworks, ProfileUnvalidated, Modes;
  }

  /** Validated data is a fixed point of the defaults. */
  lemma FilledTwice(config: Config, data: ProviderData)
    requires FirstProblem(config, data) == None
    ensures Filled(config, Filled(config, data)) == Filled(config, data)
  {
    var filled := Filled(config, data);
    NetworksAgain(config, data, filled);
    FilledNetworksStay(config, data.networks);
    if FinalMode(config, data) == "manual" {
      FilledNicsStay(config, data.staticNetwork);
    }
    assert FilledDisks(FilledDisks(data.additionalDisks)) == FilledDisks(data.additionalDisks);
    hide FilledNetworks, FinalMode, FilledNics, FilledDisks, NetworksOk, SchemaOk;
  }

  /**
   Validating what validation returned changes nothing, and succeeds exactly for v1alpha2 data whose
   manual mode did not come past the profile check. The defaults written into v1alpha1 data are
   themselves fields it may not have.
   */
  lemma {:induction false} ValidationIsANormalForm(config: Config, data: ProviderData)
    requires FirstProblem(config, data) == None
    ensures var filled := Filled(config, data);
            && Filled(config, filled) == filled
            && (FirstProblem(config, filled) == None
                <==> SchemaOf(data) == SCHEMA_V1ALPHA2 && !SlippedPastCheck(config, data))
            && FirstProblem(config, filled) ==
                 if SchemaOf(data) == SCHEMA_V1ALPHA1 then Some(BadSchema)
                 else if SlippedPastCheck(config, data) then Some(BadNetworks)
                 else None
  {
    var filled := Filled(config, data);
    FilledTwice(config, data);
    SchemaAgain(config, data);
    NetworksAgain(config, data, filled);
    StaticAgain(config, data);
    DisksAgain(config, data.additionalDisks);
    hide FilledNetworks, FinalMode, FilledNics, FilledDisks, NetworksOk, SchemaOk, DisksOk, NicOk, SlippedPastCheck,
         HasV1Alpha2Fields;
  }

  lemma SchemaAgain(config: Config, data: ProviderData)
    requires SchemaOk(data)
    ensures SchemaOk(Filled(config, data)) <==> SchemaOf(data) == SCHEMA_V1ALPHA2
  {
    assert Filled(config, data).imagePolicyMode != "";
  }

  lemma StaticAgain(config: Config, data: ProviderData)
    requires FinalMode(config, data) == "manual" ==>
      forall k :: 0 <= k < |data.staticNetwork| ==> NicOk(config, data.staticNetwork[k])
    ensures |Filled(config, data).staticNetwork| == |data.staticNetwork|
    ensures FinalMode(config, data) == "manual" ==>
      forall k :: 0 <= k < |data.staticNetwork| ==> NicOk(config, Filled(config, data).staticNetwork[k])
  {
    if FinalMode(config, data) == "manual" {
      FilledNicsStay(config, data.staticNetwork);
    }
  }

  lemma DisksAgain(config: Config, disks: seq<AdditionalDisk>)
    requires DisksOk(config, disks)
    ensures DisksOk(config, FilledDisks(disks))
  {
  }
}
