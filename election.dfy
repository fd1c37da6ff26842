/** Election-definition helpers of the election manager
    (apps/election-manager/src/utils/election.ts).
    `dashify`, the LANGUAGES table, DEFAULT_LOCALE and the numeric
    `localeCompare` collation are parameters. */
module Elections {
  import opened Wrappers
  import opened Seqs
  import Filenames

  datatype Contest = Contest(id: string, districtId: string, partyId: Option<string>)
  datatype BallotStyle = BallotStyle(id: string, precincts: seq<string>, districts: seq<string>, partyId: Option<string>)
  datatype Precinct = Precinct(id: string, name: string)
  datatype Party = Party(id: string, fullName: string)
  datatype Election = Election(
    title: string,
    countyName: string,
    contests: seq<Contest>,
    ballotStyles: seq<BallotStyle>,
    precincts: seq<Precinct>,
    parties: seq<Party>)

  /** Reading a property of `undefined` throws a TypeError. */
  const UndefinedPropertyError := "TypeError: cannot read property of undefined"

  /** A contest appears on a ballot style: its district is one of the
      style's and its party is the style's (both may be absent). */
  predicate OnBallotStyle(style: BallotStyle, c: Contest) {
    c.districtId in style.districts && style.partyId == c.partyId
  }

  /** getContests. */
  function GetContests(style: BallotStyle, election: Election): (r: seq<Contest>)
    ensures forall i :: 0 <= i < |r| ==> r[i] in election.contests && OnBallotStyle(style, r[i])
    ensures forall i :: 0 <= i < |election.contests| && OnBallotStyle(style, election.contests[i]) ==>
      election.contests[i] in r
    ensures IsSubsequence(r, election.contests)
  {
    var p := (c: Contest) => OnBallotStyle(style, c);
    FilterIsSubsequence(election.contests, p);
    Filter(election.contests, p)
  }

  /** getPrecinctById: undefined when no precinct has the id. */
  function GetPrecinctById(election: Election, precinctId: string): (r: Option<Precinct>)
    ensures r.Some? ==> r.value in election.precincts && r.value.id == precinctId
    ensures r.None? <==> forall i :: 0 <= i < |election.precincts| ==> election.precincts[i].id != precinctId
  {
    FindFirst(election.precincts, (p: Precinct) => p.id == precinctId)
  }

  /** getBallotStyle: undefined when no style has the id. */
  function GetBallotStyle(election: Election, ballotStyleId: string): (r: Option<BallotStyle>)
    ensures r.Some? ==> r.value in election.ballotStyles && r.value.id == ballotStyleId
    ensures r.None? <==> forall i :: 0 <= i < |election.ballotStyles| ==> election.ballotStyles[i].id != ballotStyleId
  {
    FindFirst(election.ballotStyles, (bs: BallotStyle) => bs.id == ballotStyleId)
  }

  function FindParty(election: Election, partyId: Option<string>): (r: Option<Party>)
    ensures r.Some? ==> partyId.Some? && r.value in election.parties && r.value.id == partyId.value
    ensures r.None? ==> forall i :: 0 <= i < |election.parties| ==> Some(election.parties[i].id) != partyId
  {
    FindFirst(election.parties, (p: Party) => Some(p.id) == partyId)
  }

  /** getPartyFullNameFromBallotStyle: the party's full name, '' when the
      style's party is not found; an unknown style throws (its party id is
      read from `undefined`). */
  function GetPartyFullNameFromBallotStyle(election: Election, ballotStyleId: string): (r: Result<string, string>)
    ensures r.Err? <==> GetBallotStyle(election, ballotStyleId).None?
    ensures r.Ok? && FindParty(election, GetBallotStyle(election, ballotStyleId).value.partyId).None? ==> r.value == ""
    ensures r.Ok? && FindParty(election, GetBallotStyle(election, ballotStyleId).value.partyId).Some? ==>
      r.value == FindParty(election, GetBallotStyle(election, ballotStyleId).value.partyId).value.fullName
    ensures r.Ok? && r.value != "" ==>
      exists i :: 0 <= i < |election.parties| && election.parties[i].fullName == r.value &&
        Some(election.parties[i].id) == GetBallotStyle(election, ballotStyleId).value.partyId
  {
    match GetBallotStyle(election, ballotStyleId)
    case None => Err(UndefinedPropertyError)
    case Some(style) =>
      match FindParty(election, style.partyId)
      case None => Ok("")
      case Some(party) => Ok(party.fullName)
  }

  datatype BallotStyleData = BallotStyleData(ballotStyleId: string, precinctIds: seq<string>, contestIds: seq<string>)

  /** The contests of a ballot style's districts, whatever their party. */
  predicate InStyleDistricts(style: BallotStyle, c: Contest) {
    c.districtId in style.districts
  }

  function Ids(cs: seq<Contest>): (r: seq<string>)
    ensures |r| == |cs| && forall i :: 0 <= i < |cs| ==> r[i] == cs[i].id
  {
    seq(|cs|, i requires 0 <= i < |cs| => cs[i].id)
  }

  function StyleData(election: Election, style: BallotStyle): BallotStyleData {
    BallotStyleData(style.id, style.precincts, Ids(Filter(election.contests, (c: Contest) => InStyleDistricts(style, c))))
  }

  /** getBallotStylesData; `rank` is the position of a ballot style id in the
      numeric locale collation that the source's comparator uses. */
  function GetBallotStylesData(election: Election, rank: string -> int): (r: seq<BallotStyleData>)
    ensures |r| == |election.ballotStyles|
    ensures multiset(r) == multiset(seq(|election.ballotStyles|, i requires 0 <= i < |election.ballotStyles| =>
      StyleData(election, election.ballotStyles[i])))
    ensures SortedBy(r, (d: BallotStyleData) => rank(d.ballotStyleId))
  {
    var data := seq(|election.ballotStyles|, i requires 0 <= i < |election.ballotStyles| =>
      StyleData(election, election.ballotStyles[i]));
    var key := (d: BallotStyleData) => rank(d.ballotStyleId);
    SortBySorted(data, key);
    SortBy(data, key)
  }

  /** The style data lists every contest of the style's districts, with no
      regard to party, where getContests also requires the party to match. */
  lemma StyleDataIgnoresParty(election: Election, style: BallotStyle, k: nat)
    requires k < |election.contests| && election.contests[k].districtId in style.districts
    ensures election.contests[k].id in StyleData(election, style).contestIds
    ensures election.contests[k].partyId != style.partyId ==> election.contests[k] !in GetContests(style, election)
  {
    var cs := Filter(election.contests, (c: Contest) => InStyleDistricts(style, c));
    assert election.contests[k] in cs;
    var j :| 0 <= j < |cs| && cs[j] == election.contests[k];
    assert Ids(cs)[j] == election.contests[k].id;
  }

  datatype BallotStyleEntry = BallotStyleEntry(ballotStyleId: string, precinctIds: seq<string>, contestIds: seq<string>, precinctId: string)

  /** One entry per precinct of a style: the style's data and that precinct. */
  function PerPrecinct(d: BallotStyleData): (r: seq<BallotStyleEntry>)
    ensures |r| == |d.precinctIds|
  {
    seq(|d.precinctIds|, j requires 0 <= j < |d.precinctIds| =>
      BallotStyleEntry(d.ballotStyleId, d.precinctIds, d.contestIds, d.precinctIds[j]))
  }

  /** getBallotStylesDataByStyle: the reduce that concatenates each style's
      per-precinct entries. */
  function GetBallotStylesDataByStyle(election: Election, rank: string -> int): (r: seq<BallotStyleEntry>)
    ensures r == FlatMap(GetBallotStylesData(election, rank), PerPrecinct)
  {
    ConcatFold(GetBallotStylesData(election, rank), PerPrecinct, [])
  }

  /** Its length is the sum of the precinct-list lengths, and the j-th
      precinct of the i-th style sits after the earlier styles' entries,
      carrying that style's data and that precinct id. */
  lemma BallotStylesDataByStyleShape(election: Election, rank: string -> int, i: nat, j: nat)
    requires i < |election.ballotStyles|
    requires j < |GetBallotStylesData(election, rank)[i].precinctIds|
    ensures var data := GetBallotStylesData(election, rank);
      var r := GetBallotStylesDataByStyle(election, rank);
      && |r| == SumLengths(data, PerPrecinct)
      && SumLengths(data[..i], PerPrecinct) + j < |r|
      && r[SumLengths(data[..i], PerPrecinct) + j] ==
         BallotStyleEntry(data[i].ballotStyleId, data[i].precinctIds, data[i].contestIds, data[i].precinctIds[j])
  {
    PerPrecinctShape(GetBallotStylesData(election, rank), i, j);
  }

  lemma PerPrecinctShape(data: seq<BallotStyleData>, i: nat, j: nat)
    requires i < |data| && j < |data[i].precinctIds|
    ensures var r := FlatMap(data, PerPrecinct);
      && |r| == SumLengths(data, PerPrecinct)
      && SumLengths(data[..i], PerPrecinct) + j < |r|
      && r[SumLengths(data[..i], PerPrecinct) + j] ==
         BallotStyleEntry(data[i].ballotStyleId, data[i].precinctIds, data[i].contestIds, data[i].precinctIds[j])
  {
    FlatMapLength(data, PerPrecinct);
    FlatMapAt(data, PerPrecinct, i, j);
    assert PerPrecinct(data[i])[j] == BallotStyleEntry(data[i].ballotStyleId, data[i].precinctIds, data[i].contestIds, data[i].precinctIds[j]);
  }

  /** `localeCode.split('-')[0]`. */
  function BeforeFirstDash(s: string): (r: string)
    ensures |r| <= |s| && r == s[..|r|]
    ensures '-' !in r
    ensures |r| < |s| ==> s[|r|] == '-'
  {
    if s == [] || s[0] == '-' then [] else [s[0]] + BeforeFirstDash(s[1..])
  }

  /** getLanguageByLocaleCode. */
  function GetLanguageByLocaleCode(languages: map<string, string>, localeCode: string): Option<string> {
    var code := BeforeFirstDash(localeCode);
    if code in languages then Some(languages[code]) else None
  }

  /** Only the part before the first '-' is looked up. */
  lemma {:induction false} LanguageIgnoresRegion(languages: map<string, string>, language: string, region: string)
    requires '-' !in language
    ensures GetLanguageByLocaleCode(languages, language + "-" + region) == GetLanguageByLocaleCode(languages, language)
  {
    BeforeFirstDashOfPrefix(language, region);
    BeforeFirstDashOfPrefix(language, "");
    assert language + "-" + "" == language + "-";
  }

  lemma {:induction false} BeforeFirstDashOfPrefix(language: string, region: string)
    requires '-' !in language
    ensures BeforeFirstDash(language + "-" + region) == language
    ensures BeforeFirstDash(language) == language
  {
    if language != [] {
      BeforeFirstDashOfPrefix(language[1..], region);
      assert (language + "-" + region)[1..] == language[1..] + "-" + region;
    }
  }

  /** A template string shows `undefined` for a missing value. */
  function Show(o: Option<string>): string {
    if o.Some? then o.value else "undefined"
  }

  /** getHumanBallotLanguageFormat: for the default locale, the lookup itself,
      which is `undefined` when the table lacks the language; otherwise both
      names in a template string, where a missing one shows as `undefined`. */
  function GetHumanBallotLanguageFormat(languages: map<string, string>, defaultLocale: string, localeCode: string): (r: Option<string>)
    ensures r.None? <==> localeCode == defaultLocale && GetLanguageByLocaleCode(languages, defaultLocale).None?
    ensures localeCode == defaultLocale ==> r == GetLanguageByLocaleCode(languages, defaultLocale)
    ensures localeCode != defaultLocale ==>
      r == Some(Show(GetLanguageByLocaleCode(languages, defaultLocale)) + "/" + Show(GetLanguageByLocaleCode(languages, localeCode)))
  {
    if localeCode == defaultLocale then GetLanguageByLocaleCode(languages, defaultLocale)
    else Some(Show(GetLanguageByLocaleCode(languages, defaultLocale)) + "/" + Show(GetLanguageByLocaleCode(languages, localeCode)))
  }

  /** The locale part of a ballot file name. */
  function Locales(localeCode: string, defaultLocale: string): (r: string)
    ensures r == defaultLocale <==> localeCode == defaultLocale
    ensures localeCode != defaultLocale ==>
      (|r| == |defaultLocale| + 1 + |localeCode| && r[..|defaultLocale|] == defaultLocale &&
       r[|defaultLocale|] == '-' && r[|defaultLocale| + 1..] == localeCode)
  {
    if localeCode == defaultLocale then defaultLocale
    else
      var r := defaultLocale + "-" + localeCode;
      assert r[|defaultLocale| + 1..] == localeCode;
      r
  }

  /** getBallotFileName; an unknown precinct throws (`!.name` of undefined). */
  function GetBallotFileName(election: Election, electionHash: string, precinctId: string, ballotStyleId: string,
                             localeCode: string, defaultLocale: string, dashify: string -> string): (r: Result<string, string>)
    ensures r.Err? <==> GetPrecinctById(election, precinctId).None?
    ensures r.Ok? ==>
      var head := "election-" + Filenames.Prefix(electionHash, 10) + "-precinct-";
      var tail := "-locale-" + Locales(localeCode, defaultLocale) + ".pdf";
      && |r.value| >= |head| + |tail|
      && r.value[..|head|] == head
      && r.value[|r.value| - |tail|..] == tail
      && r.value[|head|..|r.value| - |tail|] ==
         dashify(GetPrecinctById(election, precinctId).value.name) + "-id-" + precinctId + "-style-" + ballotStyleId
  {
    match GetPrecinctById(election, precinctId)
    case None => Err(UndefinedPropertyError)
    case Some(precinct) =>
      var head := "election-" + Filenames.Prefix(electionHash, 10) + "-precinct-";
      var middle := dashify(precinct.name) + "-id-" + precinctId + "-style-" + ballotStyleId;
      var tail := "-locale-" + Locales(localeCode, defaultLocale) + ".pdf";
      assert (head + middle + tail)[..|head|] == head;
      assert (head + middle + tail)[|head|..|head| + |middle|] == middle;
      Ok(head + middle + tail)
  }
}
