/** The sample cast-vote-record generator's `main`
    (libs/fixtures/src/cli/generate-sample-cvr-file/main.ts): argument
    defaults, the loops that trim or grow the generated list to the
    requested size, and what is written. Command-line parsing, reading and
    parsing the election file, generating the records, JSON.stringify and
    the help text are parameters; Math.random becomes a choice the proofs
    must hold for whatever it is. */
module SampleCvr {
  import opened Wrappers
  import opened Seqs
  import Filenames

  const DefaultOutputPath := "output.jsonl"
  const DefaultScannerName := "scanner"
  const MissingElectionPath := "Missing election path\n"

  /** A record: its `_ballotId`, if any, and every other field. */
  datatype CastVoteRecord = CastVoteRecord(ballotId: Option<string>, otherFields: map<string, string>)

  datatype ScannerName = NameText(text: string) | NameNumber(number: int)

  /** The parsed command line; every option may be missing. */
  datatype Args = Args(
    electionPath: Option<string>,
    outputPath: Option<string>,
    numBallots: Option<int>,
    liveBallots: Option<bool>,
    scannerNames: Option<seq<ScannerName>>,
    help: bool)

  datatype Outcome = Outcome(exitCode: int, stdout: seq<string>, stderr: seq<string>, written: Option<(string, seq<string>)>)

  /** `${n}` of an integer. */
  function IntText(n: int): string {
    if n < 0 then "-" + Filenames.Decimal(-n) else Filenames.Decimal(n)
  }

  function ScannerText(s: ScannerName): string {
    match s
    case NameText(t) => t
    case NameNumber(n) => IntText(n)
  }

  /** The defaults: output 'output.jsonl', test mode unless live ballots
      are asked for, and the single scanner 'scanner'. */
  function OutputPath(args: Args): (r: string)
    ensures args.outputPath.None? ==> r == "output.jsonl"
    ensures args.outputPath.Some? ==> r == args.outputPath.value
  {
    args.outputPath.GetOr(DefaultOutputPath)
  }

  function TestMode(args: Args): (r: bool)
    ensures r <==> args.liveBallots != Some(true)
  {
    !args.liveBallots.GetOr(false)
  }

  function ScannerNames(args: Args): (r: seq<string>)
    ensures args.scannerNames.None? ==> r == ["scanner"]
    ensures args.scannerNames.Some? ==>
      |r| == |args.scannerNames.value| && forall i :: 0 <= i < |r| ==> r[i] == ScannerText(args.scannerNames.value[i])
  {
    var names := args.scannerNames.GetOr([NameText(DefaultScannerName)]);
    seq(|names|, i requires 0 <= i < |names| => ScannerText(names[i]))
  }

  /** `splice(i, 1)`: remove the element at i; nothing when i is past the end. */
  function Splice<T>(xs: seq<T>, i: nat): (r: seq<T>)
    ensures i < |xs| ==> |r| == |xs| - 1 && IsSubsequence(r, xs)
    ensures i >= |xs| ==> r == xs
  {
    if i < |xs| then
      RemoveIsSubsequence(xs, i);
      xs[..i] + xs[i + 1..]
    else xs
  }

  lemma {:induction false} RemoveIsSubsequence<T>(xs: seq<T>, i: nat)
    requires i < |xs|
    ensures IsSubsequence(xs[..i] + xs[i + 1..], xs)
  {
    if i == 0 {
      assert xs[..0] + xs[1..] == xs[1..];
      SubsequenceRefl(xs[1..]);
      IsSubsequenceOfTail(xs[1..], xs);
    } else {
      RemoveIsSubsequence(xs[1..], i - 1);
      assert (xs[..i] + xs[i + 1..])[1..] == xs[1..][..i - 1] + xs[1..][i..];
      assert (xs[..i] + xs[i + 1..])[0] == xs[0];
    }
  }

  /** The trim loop as written: it runs while the requested number is below
      the list's length. For a negative request that guard holds for every
      list, the empty one included, and removing from the empty list leaves
      it empty, so once the list is empty the loop never ends. */
  predicate TrimGuardAsWritten(numBallots: int, records: seq<CastVoteRecord>) {
    numBallots < |records|
  }

  lemma NegativeTrimNeverEnds(numBallots: int, records: seq<CastVoteRecord>, i: nat)
    requires numBallots < 0
    ensures TrimGuardAsWritten(numBallots, records)
    ensures records != [] && i < |records| ==> |Splice(records, i)| == |records| - 1
    ensures Splice<CastVoteRecord>([], i) == [] && TrimGuardAsWritten(numBallots, Splice<CastVoteRecord>([], i))
  {
  }

  /** The trim loop, stopping at the empty list: random entries are removed
      until at most `numBallots` (and at least none) remain. */
  method TrimRecords(records: seq<CastVoteRecord>, numBallots: int) returns (out: seq<CastVoteRecord>)
    ensures numBallots >= |records| ==> out == records
    ensures numBallots < |records| ==> |out| == if numBallots < 0 then 0 else numBallots
    ensures IsSubsequence(out, records)
  {
    out := records;
    SubsequenceRefl(records);
    while out != [] && numBallots < |out|
      invariant IsSubsequence(out, records) && |out| <= |records|
      invariant numBallots >= |records| ==> out == records
      invariant numBallots < |records| ==> |out| >= (if numBallots < 0 then 0 else numBallots)
      decreases |out|
    {
      var i :| 0 <= i < |out|;
      var next := Splice(out, i);
      SubsequenceTrans(next, out, records);
      out := next;
    }
  }

  /** The `_ballotId` given to the j-th record. */
  function IdFor(j: nat): string {
    "id-" + Filenames.Decimal(j)
  }

  /** Records from `from` on carry the ids `id-from`, `id-from+1`, ... */
  predicate SequentialIds(out: seq<CastVoteRecord>, from: nat) {
    forall j {:trigger out[j]} :: from <= j < |out| ==> out[j].ballotId == Some(IdFor(j))
  }

  /** The field sets a copy can carry: those of the records, or only the
      empty one when there are none (the spread of `undefined`). */
  function Sources(records: seq<CastVoteRecord>): (r: set<map<string, string>>)
    ensures records == [] ==> r == {map[]}
    ensures forall k :: 0 <= k < |records| ==> records[k].otherFields in r
  {
    if records == [] then {map[]} else set k | 0 <= k < |records| :: records[k].otherFields
  }

  /** Every record's other fields are those of some record of `records`. */
  predicate CopiesOf(out: seq<CastVoteRecord>, records: seq<CastVoteRecord>) {
    forall j :: 0 <= j < |out| ==> out[j].otherFields in Sources(records)
  }

  lemma CopiesOfAppend(out: seq<CastVoteRecord>, records: seq<CastVoteRecord>, copy: CastVoteRecord)
    requires CopiesOf(out, records)
    requires copy.otherFields in Sources(records)
    ensures CopiesOf(out + [copy], records)
  {
    var next := out + [copy];
    assert forall j :: 0 <= j < |out| ==> next[j] == out[j];
  }

  lemma SequentialIdsAppend(out: seq<CastVoteRecord>, from: nat, copy: CastVoteRecord)
    requires SequentialIds(out, from) && copy.ballotId == Some(IdFor(|out|))
    ensures SequentialIds(out + [copy], from)
  {
    var next := out + [copy];
    assert forall j :: 0 <= j < |out| ==> next[j] == out[j];
  }

  /** The grow loop: copies of random records, with only `_ballotId`
      replaced by `id-L`, `id-L+1`, ... where L is the starting length. A
      copy taken from the empty list is the spread of `undefined`: a record
      with nothing but the new id. */
  method GrowRecords(records: seq<CastVoteRecord>, numBallots: Option<int>) returns (out: seq<CastVoteRecord>)
    ensures numBallots.None? || numBallots.value <= |records| ==> out == records
    ensures numBallots.Some? && numBallots.value > |records| ==> |out| == numBallots.value
    ensures |out| >= |records| && out[..|records|] == records
    ensures SequentialIds(out, |records|)
    ensures CopiesOf(out, records)
  {
    out := records;
    if numBallots.None? || numBallots.value <= |records| {
      return;
    }
    var target := numBallots.value;
    while |out| < target
      invariant |records| <= |out| <= target
      invariant out[..|records|] == records
      invariant SequentialIds(out, |records|)
      invariant CopiesOf(out, records)
    {
      var copy: CastVoteRecord;
      if |out| == 0 {
        copy := CastVoteRecord(Some(IdFor(|out|)), map[]);
      } else {
        var i :| 0 <= i < |out|;
        copy := out[i].(ballotId := Some(IdFor(|out|)));
        assert copy.otherFields == out[i].otherFields;
      }
      CopiesOfAppend(out, records, copy);
      SequentialIdsAppend(out, |records|, copy);
      assert (out + [copy])[..|records|] == out[..|records|];
      out := out + [copy];
    }
  }

  /** Both loops: the requested number of records (none for a negative
      request), or the generated list unchanged when no number is given;
      `warned` is whether the warning is written. */
  method Resize(generated: seq<CastVoteRecord>, numBallots: Option<int>) returns (out: seq<CastVoteRecord>, warned: bool)
    ensures warned <==> numBallots.Some? && numBallots.value < |generated|
    ensures ResizedFrom(out, generated, numBallots)
  {
    out := generated;
    warned := false;
    if numBallots.Some? && numBallots.value < |out| {
      warned := true;
      out := TrimRecords(out, numBallots.value);
    }
    out := GrowRecords(out, numBallots);
  }

  /** What Resize promises about the records it returns. */
  predicate ResizedFrom(out: seq<CastVoteRecord>, generated: seq<CastVoteRecord>, numBallots: Option<int>) {
    && (numBallots.None? ==> out == generated)
    && |out| == FinalCount(|generated|, numBallots)
    && (numBallots.Some? && numBallots.value < |generated| ==> IsSubsequence(out, generated))
    && (numBallots.Some? && numBallots.value >= |generated| ==>
          out[..|generated|] == generated && SequentialIds(out, |generated|) && CopiesOf(out, generated))
  }

  /** The number of records written: the request, none for a negative
      one, or all generated ones when no number is given. */
  function FinalCount(generated: nat, numBallots: Option<int>): nat {
    if numBallots.None? then generated else if numBallots.value < 0 then 0 else numBallots.value
  }

  function Written(count: nat, outputPath: string): string {
    "Wrote " + Filenames.Decimal(count) + " cast vote records to " + outputPath + "\n"
  }

  function Lines(records: seq<CastVoteRecord>, stringify: CastVoteRecord -> string): (r: seq<string>)
    ensures |r| == |records| && forall i :: 0 <= i < |r| ==> r[i] == stringify(records[i]) + "\n"
  {
    seq(|records|, i requires 0 <= i < |records| => stringify(records[i]) + "\n")
  }

  function Warning(count: nat): string {
    "WARNING: At least " + Filenames.Decimal(count) +
    " are suggested to be generated for maximum coverage of ballot metadata options and possible contest votes.\n"
  }

  /** main. `loadElection` reads and parses the election file (an error is
      the exception it throws); `generate` is generateCvrs. `records` are
      the records written, one JSON line each. */
  method GenerateSampleCvrFile<E>(args: Args, helpText: string, loadElection: string -> Result<E, string>,
                 generate: (E, seq<string>, bool) -> seq<CastVoteRecord>, stringify: CastVoteRecord -> string)
    returns (r: Result<Outcome, string>, records: seq<CastVoteRecord>)
    ensures args.help ==> r == Ok(Outcome(0, [helpText, "\n"], [], None))
    ensures !args.help && (args.electionPath.None? || args.electionPath.value == "") ==>
      r == Ok(Outcome(1, [], [MissingElectionPath], None))
    ensures !args.help && args.electionPath.Some? && args.electionPath.value != "" ==>
      (r.Err? <==> loadElection(args.electionPath.value).Err?)
    ensures (!args.help && args.electionPath.Some? && args.electionPath.value != "" &&
             loadElection(args.electionPath.value).Ok?) ==> r.Ok? && r.value.exitCode == 0
    ensures r.Ok? && r.value.exitCode == 0 && !args.help ==>
      args.electionPath.Some? && loadElection(args.electionPath.value).Ok?
    ensures r.Ok? && r.value.exitCode == 0 && !args.help ==>
      var generated := generate(loadElection(args.electionPath.value).value, ScannerNames(args), TestMode(args));
      && ResizedFrom(records, generated, args.numBallots)
      && r.value.written == Some((OutputPath(args), Lines(records, stringify)))
    ensures r.Ok? && r.value.exitCode == 0 && !args.help ==>
      var generated := generate(loadElection(args.electionPath.value).value, ScannerNames(args), TestMode(args));
      && r.value.stdout == [Written(FinalCount(|generated|, args.numBallots), OutputPath(args))]
      && r.value.stderr == if args.numBallots.Some? && args.numBallots.value < |generated| then [Warning(|generated|)] else []
  {
    records := [];
    if args.help {
      return Ok(Outcome(0, [helpText, "\n"], [], None)), records;
    }
    if args.electionPath.None? || args.electionPath.value == "" {
      return Ok(Outcome(1, [], [MissingElectionPath], None)), records;
    }
    var outputPath := OutputPath(args);
    var numBallots := args.numBallots;
    var testMode := TestMode(args);
    var scannerNames := ScannerNames(args);
    var election := loadElection(args.electionPath.value);
    if election.Err? {
      return Err(election.error), records;
    }
    var generated := generate(election.value, scannerNames, testMode);
    var warned;
    records, warned := Resize(generated, numBallots);
    var stderr: seq<string> := if warned then [Warning(|generated|)] else [];
    var count := |records|;
    var lines := Lines(records, stringify);
    r := Ok(Outcome(0, [Written(count, outputPath)], stderr, Some((outputPath, lines))));
  }
}
