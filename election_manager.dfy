/** Result-file bookkeeping of the election manager
    (apps/election-manager/src/app_root.tsx): which cast vote record files
    and external tallies survive a reset, when the "official results" flag
    is cleared, what is written to storage, and the election-hash check on
    a stored definition. React state and the storage backend are fields of
    one object; sha256, the election parser, the clock, the CVR export and
    import and the external-tally (de)serialisers are parameters. */
module ElectionManager {
  import opened Wrappers
  import opened Seqs
  import Elections

  const ElectionDefinitionKey := "electionDefinition"
  const CvrsKey := "cvrFiles"
  const IsOfficialResultsKey := "isOfficialResults"
  const PrintedBallotsKey := "printedBallots"
  const ConfiguredAtKey := "configuredAt"
  const ExternalTalliesKey := "externalVoteTallies"

  /** `assert.equal` failing on a stored definition whose hash is wrong. */
  const HashMismatch := "AssertionError: electionHash does not match sha256(electionData)"

  datatype ElectionDefinition = ElectionDefinition(election: Elections.Election, electionData: string, electionHash: string)

  /** `CastVoteRecordFiles.empty` is one shared object and is compared by
      identity, so it is its own constructor: a loaded set with no files is
      not `EmptyFiles`. */
  datatype CvrFiles = EmptyFiles | LoadedFiles(fileNames: seq<string>)

  datatype ExternalSource = SEMS | Manual
  datatype ExternalTally = ExternalTally(source: ExternalSource, inputSourceName: string, data: string)

  datatype PrintedBallot = PrintedBallot(ballotStyleId: string, precinctId: string, locale: string, numCopies: int)

  datatype StoredValue =
    | StoredString(text: string)
    | StoredBool(flag: bool)
    | StoredBallots(ballots: seq<PrintedBallot>)
    | StoredDefinition(definition: ElectionDefinition)

  datatype ResultsFileType = CastVoteRecord | SEMSFiles | ManualFiles | All

  /** The tallies left after resetting one source: every other tally, in order. */
  function WithoutSource(tallies: seq<ExternalTally>, source: ExternalSource): (r: seq<ExternalTally>)
    ensures IsSubsequence(r, tallies)
    ensures forall i :: 0 <= i < |r| ==> r[i].source != source
    ensures forall i :: 0 <= i < |tallies| && tallies[i].source != source ==> tallies[i] in r
  {
    var keep := (t: ExternalTally) => t.source != source;
    FilterIsSubsequence(tallies, keep);
    Filter(tallies, keep)
  }

  /** Exactly the tallies of the reset source are removed, each kept one as
      often as before. */
  lemma WithoutSourceCounts(tallies: seq<ExternalTally>, source: ExternalSource, t: ExternalTally)
    ensures t.source == source ==> multiset(WithoutSource(tallies, source))[t] == 0
    ensures t.source != source ==> multiset(WithoutSource(tallies, source))[t] == multiset(tallies)[t]
  {
    FilterCounts(tallies, (x: ExternalTally) => x.source != source);
  }

  /** A string read from storage, when it is truthy. */
  function TruthyString(stored: map<string, StoredValue>, key: string): (r: Option<string>)
    ensures r.Some? <==> key in stored && stored[key].StoredString? && stored[key].text != ""
    ensures r.Some? ==> r.value == stored[key].text
  {
    if key in stored && stored[key].StoredString? && stored[key].text != "" then Some(stored[key].text) else None
  }

  /** getElectionDefinition: a stored definition is returned only when its
      hash is the sha256 of its data, and throws otherwise. */
  function StoredElectionDefinition(stored: map<string, StoredValue>, sha256: string -> string): (r: Result<Option<ElectionDefinition>, string>)
    ensures r.Ok? && r.value.Some? ==>
      && ElectionDefinitionKey in stored
      && stored[ElectionDefinitionKey] == StoredDefinition(r.value.value)
      && sha256(r.value.value.electionData) == r.value.value.electionHash
    ensures r.Err? <==>
      (ElectionDefinitionKey in stored && stored[ElectionDefinitionKey].StoredDefinition? &&
       sha256(stored[ElectionDefinitionKey].definition.electionData) != stored[ElectionDefinitionKey].definition.electionHash)
    ensures r == Ok(None) <==> ElectionDefinitionKey !in stored || !stored[ElectionDefinitionKey].StoredDefinition?
  {
    if ElectionDefinitionKey in stored && stored[ElectionDefinitionKey].StoredDefinition? then
      var definition := stored[ElectionDefinitionKey].definition;
      if sha256(definition.electionData) == definition.electionHash then Ok(Some(definition)) else Err(HashMismatch)
    else Ok(None)
  }

  /** getPrintedBallots: the stored list, or [] when there is none. */
  function StoredPrintedBallots(stored: map<string, StoredValue>): (r: seq<PrintedBallot>)
    ensures PrintedBallotsKey in stored && stored[PrintedBallotsKey].StoredBallots? ==> r == stored[PrintedBallotsKey].ballots
    ensures !(PrintedBallotsKey in stored && stored[PrintedBallotsKey].StoredBallots?) ==> r == []
  {
    if PrintedBallotsKey in stored && stored[PrintedBallotsKey].StoredBallots? then stored[PrintedBallotsKey].ballots else []
  }

  class App {
    var storage: map<string, StoredValue>
    var isOfficialResults: bool
    var cvrFiles: CvrFiles
    var externalTallies: seq<ExternalTally>
    var printedBallots: Option<seq<PrintedBallot>>
    var electionDefinition: Option<ElectionDefinition>
    var configuredAt: string

    /** The state on first render, over whatever storage already holds. */
    constructor(stored: map<string, StoredValue>)
      ensures storage == stored
      ensures !isOfficialResults && cvrFiles == EmptyFiles && externalTallies == []
      ensures printedBallots.None? && electionDefinition.None? && configuredAt == ""
    {
      storage := stored;
      isOfficialResults := false;
      cvrFiles := EmptyFiles;
      externalTallies := [];
      printedBallots := None;
      electionDefinition := None;
      configuredAt := "";
    }

    /** saveIsOfficialResults. */
    method SaveIsOfficialResults()
      modifies this
      ensures isOfficialResults
      ensures storage == old(storage)[IsOfficialResultsKey := StoredBool(true)]
      ensures cvrFiles == old(cvrFiles) && externalTallies == old(externalTallies) && printedBallots == old(printedBallots)
      ensures electionDefinition == old(electionDefinition) && configuredAt == old(configuredAt)
    {
      isOfficialResults := true;
      storage := storage[IsOfficialResultsKey := StoredBool(true)];
    }

    /** saveCastVoteRecordFiles; an omitted argument is the empty set.
        Saving the empty set clears the official flag and both storage keys;
        any other set is stored through its export and leaves the flag. */
    method SaveCastVoteRecordFiles(newCvrFiles: Option<CvrFiles>, exportCvrs: CvrFiles -> string)
      modifies this
      ensures cvrFiles == newCvrFiles.GetOr(EmptyFiles)
      ensures cvrFiles == EmptyFiles ==>
        !isOfficialResults && storage == old(storage) - {CvrsKey, IsOfficialResultsKey}
      ensures cvrFiles != EmptyFiles ==>
        isOfficialResults == old(isOfficialResults) && storage == old(storage)[CvrsKey := StoredString(exportCvrs(cvrFiles))]
      ensures externalTallies == old(externalTallies) && printedBallots == old(printedBallots)
      ensures electionDefinition == old(electionDefinition) && configuredAt == old(configuredAt)
    {
      var files := newCvrFiles.GetOr(EmptyFiles);
      cvrFiles := files;
      if files == EmptyFiles {
        isOfficialResults := false;
      }
      if files == EmptyFiles {
        storage := storage - {CvrsKey};
        storage := storage - {IsOfficialResultsKey};
        isOfficialResults := false;
      } else {
        storage := storage[CvrsKey := StoredString(exportCvrs(files))];
      }
    }

    /** saveExternalTallies: a non-empty list is stored serialised, an
        empty one removes the key. */
    method SaveExternalTallies(tallies: seq<ExternalTally>, serialize: seq<ExternalTally> -> string)
      modifies this
      ensures externalTallies == tallies
      ensures |tallies| > 0 ==> storage == old(storage)[ExternalTalliesKey := StoredString(serialize(tallies))]
      ensures |tallies| == 0 ==> storage == old(storage) - {ExternalTalliesKey}
      ensures isOfficialResults == old(isOfficialResults) && cvrFiles == old(cvrFiles) && printedBallots == old(printedBallots)
      ensures electionDefinition == old(electionDefinition) && configuredAt == old(configuredAt)
    {
      externalTallies := tallies;
      if |tallies| > 0 {
        storage := storage[ExternalTalliesKey := StoredString(serialize(tallies))];
      } else {
        storage := storage - {ExternalTalliesKey};
      }
    }

    /** resetFiles. */
    method ResetFiles(fileType: ResultsFileType, exportCvrs: CvrFiles -> string, serialize: seq<ExternalTally> -> string)
      modifies this
      ensures fileType == CastVoteRecord ==>
        && cvrFiles == EmptyFiles && !isOfficialResults
        && externalTallies == old(externalTallies)
        && storage == old(storage) - {CvrsKey, IsOfficialResultsKey}
      ensures fileType == SEMSFiles ==>
        && externalTallies == WithoutSource(old(externalTallies), SEMS)
        && cvrFiles == old(cvrFiles) && isOfficialResults == old(isOfficialResults)
      ensures fileType == ManualFiles ==>
        && externalTallies == WithoutSource(old(externalTallies), Manual)
        && cvrFiles == old(cvrFiles) && isOfficialResults == old(isOfficialResults)
      ensures fileType in {SEMSFiles, ManualFiles} ==>
        storage == if |externalTallies| > 0 then old(storage)[ExternalTalliesKey := StoredString(serialize(externalTallies))]
                   else old(storage) - {ExternalTalliesKey}
      ensures fileType == All ==>
        && cvrFiles == EmptyFiles && !isOfficialResults && externalTallies == []
        && storage == old(storage) - {CvrsKey, IsOfficialResultsKey, ExternalTalliesKey}
      ensures printedBallots == old(printedBallots)
      ensures electionDefinition == old(electionDefinition) && configuredAt == old(configuredAt)
    {
      match fileType
      case CastVoteRecord =>
        SaveCastVoteRecordFiles(None, exportCvrs);
      case SEMSFiles =>
        var newFiles := WithoutSource(externalTallies, SEMS);
        SaveExternalTallies(newFiles, serialize);
      case ManualFiles =>
        var newFiles := WithoutSource(externalTallies, Manual);
        SaveExternalTallies(newFiles, serialize);
      case All =>
        SaveCastVoteRecordFiles(None, exportCvrs);
        SaveExternalTallies([], serialize);
        assert old(storage) - {CvrsKey, IsOfficialResultsKey} - {ExternalTalliesKey} ==
               old(storage) - {CvrsKey, IsOfficialResultsKey, ExternalTalliesKey};
    }

    /** addPrintedBallot: the stored list with exactly this ballot appended. */
    method AddPrintedBallot(ballot: PrintedBallot)
      modifies this
      ensures printedBallots == Some(StoredPrintedBallots(old(storage)) + [ballot])
      ensures storage == old(storage)[PrintedBallotsKey := StoredBallots(StoredPrintedBallots(old(storage)) + [ballot])]
      ensures isOfficialResults == old(isOfficialResults) && cvrFiles == old(cvrFiles) && externalTallies == old(externalTallies)
      ensures electionDefinition == old(electionDefinition) && configuredAt == old(configuredAt)
    {
      var ballots := StoredPrintedBallots(storage);
      ballots := ballots + [ballot];
      storage := storage[PrintedBallotsKey := StoredBallots(ballots)];
      printedBallots := Some(ballots);
    }

    /** saveElection: storage is cleared and all result state reset; a
        truthy JSON text is then hashed, parsed (a parse failure throws after
        the reset) and stored with the time it was configured. */
    method SaveElection(electionJson: Option<string>, sha256: string -> string,
                        parseElection: string -> Result<Elections.Election, string>, now: string)
      returns (r: Result<(), string>)
      modifies this
      ensures !isOfficialResults && cvrFiles == EmptyFiles && externalTallies == [] && printedBallots == Some([])
      ensures electionJson.None? || electionJson.value == "" ==>
        r.Ok? && storage == map[] && electionDefinition.None? && configuredAt == old(configuredAt)
      ensures electionJson.Some? && electionJson.value != "" && parseElection(electionJson.value).Err? ==>
        r == Err(parseElection(electionJson.value).error) && storage == map[] && electionDefinition.None? &&
        configuredAt == old(configuredAt)
      ensures electionJson.Some? && electionJson.value != "" && parseElection(electionJson.value).Ok? ==>
        var definition := ElectionDefinition(parseElection(electionJson.value).value, electionJson.value, sha256(electionJson.value));
        && r.Ok? && electionDefinition == Some(definition) && configuredAt == now
        && storage == map[ConfiguredAtKey := StoredString(now), ElectionDefinitionKey := StoredDefinition(definition)]
    {
      storage := map[];
      isOfficialResults := false;
      cvrFiles := EmptyFiles;
      externalTallies := [];
      printedBallots := Some([]);
      electionDefinition := None;
      if electionJson.Some? && electionJson.value != "" {
        var electionData := electionJson.value;
        var electionHash := sha256(electionData);
        var parsed := parseElection(electionData);
        if parsed.Err? {
          return Err(parsed.error);
        }
        var definition := ElectionDefinition(parsed.value, electionData, electionHash);
        electionDefinition := Some(definition);
        configuredAt := now;
        storage := storage[ConfiguredAtKey := StoredString(now)];
        storage := storage[ElectionDefinitionKey := StoredDefinition(definition)];
      }
      r := Ok(());
    }

    /** The load-from-storage effect, run while no election definition is
        in memory: the stored definition (checked against its hash) and its
        configuration time; the stored CVR files, only while the in-memory
        set is still the empty set, with the official flag defaulting to
        false; and the stored external tallies, only when none are in memory
        and a definition was found in storage. */
    method LoadFromStorage(sha256: string -> string, importCvrs: string -> CvrFiles,
                           deserialize: string -> seq<ExternalTally>) returns (r: Result<(), string>)
      modifies this
      ensures storage == old(storage) && printedBallots == old(printedBallots)
      ensures old(electionDefinition).Some? ==>
        (r.Ok? && electionDefinition == old(electionDefinition) && configuredAt == old(configuredAt) &&
         cvrFiles == old(cvrFiles) && isOfficialResults == old(isOfficialResults) && externalTallies == old(externalTallies))
      ensures old(electionDefinition).None? ==>
        && (r.Err? <==> StoredElectionDefinition(storage, sha256).Err?)
        && (r.Ok? && StoredElectionDefinition(storage, sha256).value.Some? ==>
              electionDefinition == StoredElectionDefinition(storage, sha256).value &&
              configuredAt == TruthyString(storage, ConfiguredAtKey).GetOr(""))
      ensures r.Err? ==>
        electionDefinition == old(electionDefinition) && configuredAt == old(configuredAt) &&
        cvrFiles == old(cvrFiles) && isOfficialResults == old(isOfficialResults) && externalTallies == old(externalTallies)
      ensures r.Ok? && old(electionDefinition).None? && StoredElectionDefinition(storage, sha256).value.None? ==>
        electionDefinition.None? && configuredAt == old(configuredAt)
      ensures r.Ok? && (old(cvrFiles) != EmptyFiles || TruthyString(storage, CvrsKey).None?) ==>
        cvrFiles == old(cvrFiles) && isOfficialResults == old(isOfficialResults)
      ensures r.Ok? && old(electionDefinition).None? && old(cvrFiles) == EmptyFiles && TruthyString(storage, CvrsKey).Some? ==>
        cvrFiles == importCvrs(TruthyString(storage, CvrsKey).value) &&
        isOfficialResults == (IsOfficialResultsKey in storage && storage[IsOfficialResultsKey] == StoredBool(true))
      ensures r.Ok? && old(electionDefinition).None? && |old(externalTallies)| == 0 &&
              StoredElectionDefinition(storage, sha256).value.Some? && TruthyString(storage, ExternalTalliesKey).Some? ==>
        externalTallies == deserialize(TruthyString(storage, ExternalTalliesKey).value)
      ensures r.Ok? && old(electionDefinition).None? && !(|old(externalTallies)| == 0 && StoredElectionDefinition(storage, sha256).value.Some? &&
                         TruthyString(storage, ExternalTalliesKey).Some?) ==>
        externalTallies == old(externalTallies)
    {
      if electionDefinition.Some? {
        return Ok(());
      }
      var storageElectionDefinition := StoredElectionDefinition(storage, sha256);
      if storageElectionDefinition.Err? {
        return Err(storageElectionDefinition.error);
      }
      if storageElectionDefinition.value.Some? {
        var configuredAtTime := TruthyString(storage, ConfiguredAtKey).GetOr("");
        electionDefinition := storageElectionDefinition.value;
        configuredAt := configuredAtTime;
      }
      if cvrFiles == EmptyFiles {
        var storageCvrFiles := TruthyString(storage, CvrsKey);
        if storageCvrFiles.Some? {
          var cvrs := importCvrs(storageCvrFiles.value);
          var newIsOfficialResults := IsOfficialResultsKey in storage && storage[IsOfficialResultsKey] == StoredBool(true);
          cvrFiles := cvrs;
          isOfficialResults := newIsOfficialResults;
        }
      }
      if |externalTallies| == 0 && storageElectionDefinition.value.Some? {
        var storageExternalTallies := TruthyString(storage, ExternalTalliesKey);
        if storageExternalTallies.Some? {
          externalTallies := deserialize(storageExternalTallies.value);
        }
      }
      r := Ok(());
    }
  }

  /** A definition saved by saveElection passes the hash check when it is
      loaded back. */
  lemma SavedDefinitionPassesHashCheck(election: Elections.Election, electionData: string, sha256: string -> string, now: string)
    ensures var definition := ElectionDefinition(election, electionData, sha256(electionData));
      StoredElectionDefinition(map[ConfiguredAtKey := StoredString(now), ElectionDefinitionKey := StoredDefinition(definition)], sha256) ==
        Ok(Some(definition))
  {
  }
}
