/** Scoping of the tally report screen
    (apps/election-manager/src/screens/TallyReportScreen.tsx): which parties
    and precincts are reported, the title and file suffix, the outer header
    filters and the per-(party, precinct) printed sections. The tallies
    themselves are computed elsewhere; only the filters handed to them are
    modelled. `getLabelForVotingMethod` is the parameter `labelFor`. */
module TallyReport {
  import opened Wrappers
  import opened Seqs
  import opened Elections
  import Find

  const AllPrecincts := "all"

  /** JavaScript truthiness of an optional string: defined and not ''. */
  predicate Truthy(o: Option<string>) {
    o.Some? && o.value != ""
  }

  /** The route's parameters. */
  datatype Props = Props(precinctId: Option<string>, scannerId: Option<string>, partyId: Option<string>, votingMethod: Option<string>)

  /** The parameters handed to the internal tally filter. */
  datatype TallyFilter = TallyFilter(precinctId: Option<string>, scannerId: Option<string>, partyId: Option<string>, votingMethod: Option<string>)

  /** The parameters handed to the external tally filter of a section. */
  datatype ExternalFilter = ExternalFilter(precinctId: Option<string>, partyId: Option<string>)

  function StatusPrefix(isOfficialResults: bool): (r: string)
    ensures r == "Official" <==> isOfficialResults
    ensures r == "Unofficial" <==> !isOfficialResults
  {
    if isOfficialResults then "Official" else "Unofficial"
  }

  function BallotStylePartyIdList(election: Election): (r: seq<Option<string>>)
    ensures |r| == |election.ballotStyles|
    ensures forall i :: 0 <= i < |r| ==> r[i] == election.ballotStyles[i].partyId
  {
    seq(|election.ballotStyles|, i requires 0 <= i < |election.ballotStyles| => election.ballotStyles[i].partyId)
  }

  /** ballotStylePartyIds: the given party, otherwise the distinct party ids
      of the ballot styles (an absent party id is one of the values). */
  function BallotStylePartyIds(election: Election, partyIdFromProps: Option<string>): (r: seq<Option<string>>)
    ensures partyIdFromProps.Some? ==> r == [partyIdFromProps]
    ensures partyIdFromProps.None? ==> r == Distinct(BallotStylePartyIdList(election))
    ensures partyIdFromProps.None? ==>
      && NoDuplicates(r)
      && (forall i :: 0 <= i < |r| ==> exists k :: 0 <= k < |election.ballotStyles| && election.ballotStyles[k].partyId == r[i])
      && (forall k :: 0 <= k < |election.ballotStyles| ==> election.ballotStyles[k].partyId in r)
  {
    if partyIdFromProps.Some? then [partyIdFromProps]
    else
      var ids := BallotStylePartyIdList(election);
      DistinctProperties(ids);
      assert forall i :: 0 <= i < |Distinct(ids)| ==> Distinct(ids)[i] in ids;
      Distinct(ids)
  }

  /** precinctIds: 'all' expands to every precinct id in election order. */
  function PrecinctIds(election: Election, precinctIdFromProps: Option<string>): (r: seq<Option<string>>)
    ensures precinctIdFromProps == Some(AllPrecincts) ==>
      |r| == |election.precincts| && forall i :: 0 <= i < |r| ==> r[i] == Some(election.precincts[i].id)
    ensures precinctIdFromProps != Some(AllPrecincts) ==> r == [precinctIdFromProps]
  {
    if precinctIdFromProps == Some(AllPrecincts) then
      seq(|election.precincts|, i requires 0 <= i < |election.precincts| => Some(election.precincts[i].id))
    else [precinctIdFromProps]
  }

  /** precinctName: the name of the selected precinct, absent for 'all', for
      no precinct and for an empty name; an unknown precinct throws. */
  function PrecinctName(election: Election, precinctIdFromProps: Option<string>): (r: Result<Option<string>, Find.FindError>)
    ensures !Truthy(precinctIdFromProps) || precinctIdFromProps == Some(AllPrecincts) ==> r == Ok(None)
    ensures Truthy(precinctIdFromProps) && precinctIdFromProps != Some(AllPrecincts) ==>
      (r.Err? <==> GetPrecinctById(election, precinctIdFromProps.value).None?)
    ensures r.Ok? && r.value.Some? ==>
      r.value.value != "" && GetPrecinctById(election, precinctIdFromProps.value) == Some(Precinct(precinctIdFromProps.value, r.value.value))
  {
    if !Truthy(precinctIdFromProps) || precinctIdFromProps == Some(AllPrecincts) then Ok(None)
    else
      match GetPrecinctById(election, precinctIdFromProps.value)
      case None => Err(Find.NoMatch)
      case Some(precinct) => if precinct.name == "" then Ok(None) else Ok(Some(precinct.name))
  }

  datatype ReportTitle = ReportTitle(title: string, fileSuffix: Option<string>)

  /** reportDisplayTitle together with the `fileSuffix` it reassigns. The
      first that applies wins: precinct name, scanner, all precincts, party,
      voting method, the election-wide default. An unknown party throws. */
  method ReportDisplayTitle(election: Election, isOfficialResults: bool, props: Props, precinctName: Option<string>,
                            labelFor: string -> string) returns (r: Result<ReportTitle, string>)
    ensures var prefix := StatusPrefix(isOfficialResults);
      && (Truthy(precinctName) ==>
            r == Ok(ReportTitle(prefix + " Precinct Tally Report for " + precinctName.value, precinctName)))
      && (!Truthy(precinctName) && Truthy(props.scannerId) ==>
            r == Ok(ReportTitle(prefix + " Scanner Tally Report for Scanner " + props.scannerId.value,
                                Some("scanner-" + props.scannerId.value))))
      && (!Truthy(precinctName) && !Truthy(props.scannerId) && props.precinctId == Some(AllPrecincts) ==>
            r == Ok(ReportTitle(prefix + " " + election.title + " Tally Reports for All Precincts", Some("all-precincts"))))
      && (!Truthy(precinctName) && !Truthy(props.scannerId) && props.precinctId != Some(AllPrecincts) && Truthy(props.partyId) ==>
            (r.Err? <==> FindParty(election, props.partyId).None?) &&
            (r.Ok? ==> (var name := FindParty(election, props.partyId).value.fullName;
                        r.value == ReportTitle(prefix + " Tally Report for " + name, Some(name)))))
      && (!Truthy(precinctName) && !Truthy(props.scannerId) && props.precinctId != Some(AllPrecincts) && !Truthy(props.partyId) &&
          Truthy(props.votingMethod) ==>
            (var methodLabel := labelFor(props.votingMethod.value);
             r == Ok(ReportTitle(prefix + " " + methodLabel + " Ballot Tally Report", Some(methodLabel + "-ballots")))))
      && (!Truthy(precinctName) && !Truthy(props.scannerId) && props.precinctId != Some(AllPrecincts) && !Truthy(props.partyId) &&
          !Truthy(props.votingMethod) ==>
            r == Ok(ReportTitle(prefix + " " + election.title + " Tally Report", precinctName)))
    ensures r.Ok? ==>
      (|r.value.title| > |StatusPrefix(isOfficialResults)| &&
       r.value.title[..|StatusPrefix(isOfficialResults)| + 1] == StatusPrefix(isOfficialResults) + " ")
  {
    var statusPrefix := StatusPrefix(isOfficialResults);
    var fileSuffix := precinctName;
    var title: string;
    if Truthy(precinctName) {
      title := statusPrefix + " Precinct Tally Report for " + precinctName.value;
      SpacedPrefix(statusPrefix, " Precinct Tally Report for ", precinctName.value);
    } else if Truthy(props.scannerId) {
      fileSuffix := Some("scanner-" + props.scannerId.value);
      title := statusPrefix + " Scanner Tally Report for Scanner " + props.scannerId.value;
      SpacedPrefix(statusPrefix, " Scanner Tally Report for Scanner ", props.scannerId.value);
    } else if props.precinctId == Some(AllPrecincts) {
      fileSuffix := Some("all-precincts");
      title := statusPrefix + " " + election.title + " Tally Reports for All Precincts";
      SpacedPrefix(statusPrefix, " ", election.title + " Tally Reports for All Precincts");
    } else if Truthy(props.partyId) {
      var party := FindParty(election, props.partyId);
      if party.None? {
        return Err(UndefinedPropertyError);
      }
      fileSuffix := Some(party.value.fullName);
      title := statusPrefix + " Tally Report for " + party.value.fullName;
      SpacedPrefix(statusPrefix, " Tally Report for ", party.value.fullName);
    } else if Truthy(props.votingMethod) {
      var methodLabel := labelFor(props.votingMethod.value);
      fileSuffix := Some(methodLabel + "-ballots");
      title := statusPrefix + " " + methodLabel + " Ballot Tally Report";
      SpacedPrefix(statusPrefix, " ", methodLabel + " Ballot Tally Report");
    } else {
      title := statusPrefix + " " + election.title + " Tally Report";
      SpacedPrefix(statusPrefix, " ", election.title + " Tally Report");
    }
    r := Ok(ReportTitle(title, fileSuffix));
  }

  lemma SpacedPrefix(prefix: string, middle: string, rest: string)
    requires |middle| >= 1 && middle[0] == ' '
    ensures |prefix + middle + rest| > |prefix|
    ensures (prefix + middle + rest)[..|prefix| + 1] == prefix + " "
    ensures prefix + middle + rest == prefix + (middle + rest)
  {
    assert (prefix + middle + rest)[..|prefix| + 1] == prefix + [middle[0]];
  }

  /** singlePrecinctId: defined only when exactly one precinct is selected. */
  function SinglePrecinctId(precinctIds: seq<Option<string>>): (r: Option<string>)
    ensures |precinctIds| != 1 ==> r.None?
    ensures |precinctIds| == 1 ==> r == precinctIds[0]
  {
    if |precinctIds| == 1 then precinctIds[0] else None
  }

  /** The header above the printed sections: the filters of the outer
      internal and external tallies, and whether the counts by voting method
      are shown. */
  datatype Header = Header(internalFilter: TallyFilter, externalFilter: TallyFilter, votingMethodCounts: bool)

  function OuterHeader(election: Election, props: Props): (r: Header)
    ensures r.internalFilter == r.externalFilter
    ensures r.internalFilter.scannerId == props.scannerId && r.internalFilter.partyId == props.partyId &&
            r.internalFilter.votingMethod == props.votingMethod
    ensures r.votingMethodCounts <==> !Truthy(props.votingMethod)
  {
    var filter := TallyFilter(SinglePrecinctId(PrecinctIds(election, props.precinctId)), props.scannerId, props.partyId, props.votingMethod);
    Header(filter, filter, !Truthy(props.votingMethod))
  }

  /** The outer tallies are narrowed to a precinct exactly when a single one
      is selected: 'all' of several precincts leaves them election-wide. */
  lemma OuterHeaderPrecinct(election: Election, props: Props)
    ensures props.precinctId != Some(AllPrecincts) ==> OuterHeader(election, props).internalFilter.precinctId == props.precinctId
    ensures props.precinctId == Some(AllPrecincts) && |election.precincts| != 1 ==>
      OuterHeader(election, props).internalFilter.precinctId.None?
    ensures props.precinctId == Some(AllPrecincts) && |election.precincts| == 1 ==>
      OuterHeader(election, props).internalFilter.precinctId == Some(election.precincts[0].id)
  {
  }

  datatype SectionKind = PrecinctSection(precinctName: string) | ScannerSection(scannerId: string) | VotingMethodSection(methodLabel: string) | OverallSection

  /** One printed section: its party and precinct, heading title, kind, the
      filters of its internal tally, and the filter of its external tally
      when one is shown. */
  datatype Section = Section(
    partyId: Option<string>,
    precinctId: Option<string>,
    electionTitle: string,
    kind: SectionKind,
    internalFilter: TallyFilter,
    externalFilter: Option<ExternalFilter>,
    votingMethodCounts: bool)

  /** The election title, prefixed by the section party's full name. */
  function SectionTitle(election: Election, partyId: Option<string>): (r: string)
    ensures FindParty(election, partyId).None? ==> r == election.title
    ensures FindParty(election, partyId).Some? ==> r == FindParty(election, partyId).value.fullName + " " + election.title
  {
    match FindParty(election, partyId)
    case None => election.title
    case Some(party) => party.fullName + " " + election.title
  }

  /** The section for one (party, precinct) pair; the kind is chosen in the
      order precinct, scanner, voting method, overall. */
  function MakeSection(election: Election, props: Props, labelFor: string -> string, partyId: Option<string>, precinctId: Option<string>): (r: Result<Section, Find.FindError>)
    ensures r.Err? <==> Truthy(precinctId) && GetPrecinctById(election, precinctId.value).None?
    ensures r.Ok? ==>
      var s := r.value;
      && s.partyId == partyId && s.precinctId == precinctId
      && s.electionTitle == SectionTitle(election, partyId)
      && s.internalFilter == TallyFilter(precinctId, props.scannerId, partyId, props.votingMethod)
      && (Truthy(precinctId) ==>
            s.kind == PrecinctSection(GetPrecinctById(election, precinctId.value).value.name) &&
            s.externalFilter == Some(ExternalFilter(precinctId, partyId)) && s.votingMethodCounts)
      && (!Truthy(precinctId) && Truthy(props.scannerId) ==>
            s.kind == ScannerSection(props.scannerId.value) && s.externalFilter.None? && s.votingMethodCounts)
      && (!Truthy(precinctId) && !Truthy(props.scannerId) && Truthy(props.votingMethod) ==>
            s.kind == VotingMethodSection(labelFor(props.votingMethod.value)) && s.externalFilter.None? && !s.votingMethodCounts)
      && (!Truthy(precinctId) && !Truthy(props.scannerId) && !Truthy(props.votingMethod) ==>
            s.kind == OverallSection && s.externalFilter == Some(ExternalFilter(precinctId, partyId)) && s.votingMethodCounts)
  {
    var title := SectionTitle(election, partyId);
    var internal := TallyFilter(precinctId, props.scannerId, partyId, props.votingMethod);
    var external := ExternalFilter(precinctId, partyId);
    if Truthy(precinctId) then
      match GetPrecinctById(election, precinctId.value)
      case None => Err(Find.NoMatch)
      case Some(precinct) => Ok(Section(partyId, precinctId, title, PrecinctSection(precinct.name), internal, Some(external), true))
    else if Truthy(props.scannerId) then
      Ok(Section(partyId, precinctId, title, ScannerSection(props.scannerId.value), internal, None, true))
    else if Truthy(props.votingMethod) then
      Ok(Section(partyId, precinctId, title, VotingMethodSection(labelFor(props.votingMethod.value)), internal, None, false))
    else
      Ok(Section(partyId, precinctId, title, OverallSection, internal, Some(external), true))
  }

  /** The per-party row of (party, precinct) pairs. */
  function PairsFor(precinctIds: seq<Option<string>>): Option<string> -> seq<(Option<string>, Option<string>)> {
    (partyId: Option<string>) =>
      seq(|precinctIds|, j requires 0 <= j < |precinctIds| => (partyId, precinctIds[j]))
  }

  /** The party × precinct cross product, party-major. */
  function Pairs(partyIds: seq<Option<string>>, precinctIds: seq<Option<string>>): seq<(Option<string>, Option<string>)> {
    FlatMap(partyIds, PairsFor(precinctIds))
  }

  lemma {:induction false} SumLengthsConstant(partyIds: seq<Option<string>>, precinctIds: seq<Option<string>>)
    ensures SumLengths(partyIds, PairsFor(precinctIds)) == |partyIds| * |precinctIds|
  {
    if partyIds != [] {
      SumLengthsConstant(partyIds[1..], precinctIds);
      assert |PairsFor(precinctIds)(partyIds[0])| == |precinctIds|;
      assert (|partyIds| - 1) * |precinctIds| + |precinctIds| == |partyIds| * |precinctIds|;
    }
  }

  /** The pair at i * |precincts| + j is party i with precinct j. */
  lemma PairsAt(partyIds: seq<Option<string>>, precinctIds: seq<Option<string>>, i: nat, j: nat)
    requires i < |partyIds| && j < |precinctIds|
    ensures |Pairs(partyIds, precinctIds)| == |partyIds| * |precinctIds|
    ensures i * |precinctIds| + j < |Pairs(partyIds, precinctIds)|
    ensures Pairs(partyIds, precinctIds)[i * |precinctIds| + j] == (partyIds[i], precinctIds[j])
  {
    FlatMapLength(partyIds, PairsFor(precinctIds));
    SumLengthsConstant(partyIds, precinctIds);
    SumLengthsConstant(partyIds[..i], precinctIds);
    FlatMapAt(partyIds, PairsFor(precinctIds), i, j);
  }

  function SectionsOf(election: Election, props: Props, labelFor: string -> string, pairs: seq<(Option<string>, Option<string>)>): (r: Result<seq<Section>, Find.FindError>)
    ensures r.Ok? <==> forall k :: 0 <= k < |pairs| ==> MakeSection(election, props, labelFor, pairs[k].0, pairs[k].1).Ok?
    ensures r.Ok? ==>
      (|r.value| == |pairs| &&
       forall k :: 0 <= k < |pairs| ==> Ok(r.value[k]) == MakeSection(election, props, labelFor, pairs[k].0, pairs[k].1))
  {
    if pairs == [] then Ok([])
    else
      var head := MakeSection(election, props, labelFor, pairs[0].0, pairs[0].1);
      var tail := SectionsOf(election, props, labelFor, pairs[1..]);
      if head.Err? then Err(head.error)
      else if tail.Err? then Err(tail.error)
      else Ok([head.value] + tail.value)
  }

  /** The printed sections, one per (party, precinct) pair, party-major. */
  function Sections(election: Election, props: Props, labelFor: string -> string): Result<seq<Section>, Find.FindError> {
    SectionsOf(election, props, labelFor, Pairs(BallotStylePartyIds(election, props.partyId), PrecinctIds(election, props.precinctId)))
  }

  /** Section i * |precincts| + j is the one for party i and precinct j. */
  lemma SectionsAt(election: Election, props: Props, labelFor: string -> string, i: nat, j: nat)
    requires Sections(election, props, labelFor).Ok?
    requires i < |BallotStylePartyIds(election, props.partyId)| && j < |PrecinctIds(election, props.precinctId)|
    ensures var parties := BallotStylePartyIds(election, props.partyId);
      var precincts := PrecinctIds(election, props.precinctId);
      var sections := Sections(election, props, labelFor).value;
      && |sections| == |parties| * |precincts|
      && i * |precincts| + j < |sections|
      && Ok(sections[i * |precincts| + j]) == MakeSection(election, props, labelFor, parties[i], precincts[j])
  {
    PairsAt(BallotStylePartyIds(election, props.partyId), PrecinctIds(election, props.precinctId), i, j);
  }
}
