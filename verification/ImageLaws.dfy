/** The image manager's decisions in terms of what was asked and what OpenNebula reported. */
module ImageLaws {
  import opened Wrappers
  import opened Text
  import opened TextLaws
  import opened OpenNebula
  import opened ImageManager

  /** Ready is an image in one of three states, and failed one in one of two others, in whatever case. */
  lemma StatesMean(state: string)
    ensures Upper(state) in READY_STATES <==>
      SpelledAs(state, "READY") || SpelledAs(state, "USED") || SpelledAs(state, "USED_PERS")
    ensures Upper(state) in FAILED_STATES <==> SpelledAs(state, "ERROR") || SpelledAs(state, "DELETE")
    ensures !(Upper(state) in READY_STATES && Upper(state) in FAILED_STATES)
  {
    UpperIsSpelled(state, "READY");
    UpperIsSpelled(state, "USED");
    UpperIsSpelled(state, "USED_PERS");
    UpperIsSpelled(state, "ERROR");
    UpperIsSpelled(state, "DELETE");
    hide Upper, SpelledAs;
    assert "READY"[0] == 'R' && "USED"[0] == "USED_PERS"[0] == 'U' && "ERROR"[0] == 'E' && "DELETE"[0] == 'D';
  }

  /** Only a ready image is usable; a failed one is given up, and for any other it pays to ask again. */
  lemma ReadyExactly(world: World, imageId: int)
    ensures IsReady(world, imageId) <==>
      && world.getImage(imageId).Success?
      && var state := world.getImage(imageId).value.state;
         SpelledAs(state, "READY") || SpelledAs(state, "USED") || SpelledAs(state, "USED_PERS")
  {
    if world.getImage(imageId).Success? {
      StatesMean(world.getImage(imageId).value.state);
    }
    hide SpelledAs, Upper;
  }

  lemma EvaluatedExactly(info: ImageInfo, request: Request, providerManaged: bool)
    ensures var (result, failure) := Evaluate(info, request, providerManaged);
            && (failure == None <==>
                  SpelledAs(info.state, "READY") || SpelledAs(info.state, "USED") || SpelledAs(info.state, "USED_PERS"))
            && (failure == Some(Terminal) <==> SpelledAs(info.state, "ERROR") || SpelledAs(info.state, "DELETE"))
            && (failure.Some? && failure != Some(Terminal) ==> failure == Some(Retryable))
            && (failure != Some(Terminal) ==>
                  && result.image == ImageRef(info.id, info.name, info.datastore, info.sizeMiB)
                  && result.checksum == request.existingChecksum && result.providerManaged == providerManaged)
  {
    StatesMean(info.state);
    hide SpelledAs, Upper, READY_STATES, FAILED_STATES;
  }

  /** The source reported is the recorded one, else the one OpenNebula knows. */
  lemma SourceReported(info: ImageInfo, request: Request, providerManaged: bool)
    requires IsReadyState(info)
    ensures var source := Evaluate(info, request, providerManaged).0.sourceURL;
            && (!IsBlank(request.existingSource) ==> source == request.existingSource)
            && (IsBlank(request.existingSource) && !IsBlank(info.source) ==> source == info.source)
            && (IsBlank(request.existingSource) && IsBlank(info.source) ==> source == "")
  {
    hide IsBlank;
  }

  predicate IsReadyState(info: ImageInfo) {
    Upper(info.state) in READY_STATES
  }

  /** Artifacts named `.zst`, in any case and with white space around, are unpacked here; no others are. */
  lemma StagedExactly(sourceURL: string)
    ensures var t := TrimSpace(sourceURL);
            NeedsLocalStaging(sourceURL) <==>
              && |t| >= 4 && t[|t| - 4] == '.' && t[|t| - 3] in "zZ" && t[|t| - 2] in "sS" && t[|t| - 1] in "tT"
  {
    var t := TrimSpace(sourceURL);
    LowerAt(t);
    RawIsZst(Lower(t));
    ZstAt(Lower(t));
    hide TrimSpace, Lower, HasSuffix;
  }

  lemma ZstAt(s: string)
    ensures HasSuffix(s, ".zst") <==>
      |s| >= 4 && s[|s| - 4] == '.' && s[|s| - 3] == 'z' && s[|s| - 2] == 's' && s[|s| - 1] == 't'
  {
    if |s| >= 4 {
      assert s[|s| - 4..] == [s[|s| - 4], s[|s| - 3], s[|s| - 2], s[|s| - 1]];
    }
  }

  lemma RawIsZst(s: string)
    ensures HasSuffix(s, ".raw.zst") ==> HasSuffix(s, ".zst")
  {
    if HasSuffix(s, ".raw.zst") {
      assert ".raw.zst"[4..] == ".zst";
      assert s[|s| - 8..][4..] == s[|s| - 4..];
    }
  }

  /** A recorded checksum is believed; a required one is compared with the hash; any other is taken as published. */
  lemma ChecksumExactly(world: World, config: Config, request: Request, actual: Result<string, ErrorClass>)
    ensures var r := CheckedSum(world, config, request, actual);
            var unpublished := IsBlank(config.checksumURLTemplate);
            && (request.existingChecksum != "" ==> r == Success(request.existingChecksum))
            && (request.existingChecksum == "" && unpublished ==>
                  r == if config.requireChecksum then actual else Success(""))
            && (request.existingChecksum == "" && !unpublished && !Published(world, config, request) ==> r.Failure?)
            && (request.existingChecksum == "" && !unpublished && Published(world, config, request) ==>
                  var rendered := world.render(TrimSpace(config.checksumURLTemplate), request).value;
                  var expected := world.fetchChecksum(rendered).value;
                  && (r.Success? ==> r.value == expected)
                  && (!config.requireChecksum ==> r.Success?)
                  && (config.requireChecksum && actual.Failure? ==> r == actual)
                  && (config.requireChecksum && actual.Success? ==>
                        (r.Success? <==> EqualFold(expected, actual.value)) && (r.Failure? ==> r.error == Terminal)))
  {
    hide EqualFold, TrimSpace;
  }

  /** An import gets as far as the creation when its checksum is found right and, if staged, its file unpacks. */
  lemma PreparedExactly(world: World, config: Config, request: Request, sourceURL: string, datastoreId: int)
    ensures PrepareImport(world, config, request, sourceURL, datastoreId).Success? <==>
      if NeedsLocalStaging(sourceURL)
      then world.download(sourceURL) == None && world.unpack(sourceURL) == None &&
           CheckedSum(world, config, request, world.hashStaged(sourceURL)).Success?
      else CheckedSum(world, config, request, world.hashSource(sourceURL)).Success?
  {
    hide CheckedSum, NeedsLocalStaging;
  }

  /**
   What is asked of OpenNebula, and how it is forecast: the image is looked up under its name, in the
   request's datastore, else the configured one, else in all of them, and imported when it is not found and
   the request, else the configuration, allows it.
   */
  lemma ForecastExactly(world: World, config: Config, asked: Request)
    ensures var datastore := if asked.datastore != "" then asked.datastore else config.defaultDatastore;
            var found := if IsBlank(datastore) then world.lookupByName(asked.imageName)
                         else world.lookupInDatastore(asked.imageName, datastore);
            var allowed := asked.allowImport == Some(true) || (asked.allowImport == None && config.importOnMiss);
            var source := world.render(config.artifactURLTemplate,
                                       asked.(arch := if asked.arch == "" then "amd64" else asked.arch));
            var r := Predict(world, config, asked);
            && (found.Success? ==>
                  r == Success(Prediction(found.value, Reused, "", datastore, false, config.requireChecksum)))
            && (found.Failure? && !(found.error.NotFound? && allowed) ==> r == Failure(found.error))
            && (found == Failure(NotFound) && allowed && source.Failure? ==> r == Failure(source.error))
            && (found == Failure(NotFound) && allowed && source.Success? ==>
                  r == Success(Prediction(NO_IMAGE, Imported, source.value, datastore, true, config.requireChecksum)))
  {
    hide IsBlank;
  }
}
