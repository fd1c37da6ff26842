/** The write-in image locator of the admin service
    (services/admin/src/server.ts): given a cast vote record with page
    layouts and ballot images, find the page and the layout of a contest
    and the bounds of one of its write-in slots. The page walk subtracts
    the contest count of the page it moves to; `WalkAsWritten` and the
    method `WalkPages` keep that, `CorrectedWalk` subtracts the count of the
    page it leaves, and `LocateWriteIn` uses the corrected walk. */
module WriteInImage {
  import opened Wrappers
  import opened Seqs
  import Elections
  import Filenames

  const UnexpectedTypes := "unexpected types"
  const UnequalLengths := "not all iterables are the same length"
  const WriteInPrefix := "write-in"
  const WriteInIdPrefixLength := 9  // 'write-in-'.length

  datatype Rect = Rect(x: int, y: int, width: int, height: int)
  datatype Size = Size(width: int, height: int)
  datatype OptionLayout = OptionLayout(definitionId: Option<string>, bounds: Rect)
  datatype ContestLayout = ContestLayout(bounds: Rect, options: seq<OptionLayout>)
  datatype PageLayout = PageLayout(pageNumber: int, pageSize: Size, contests: seq<ContestLayout>)
  datatype BallotImage = BallotImage(normalized: string)
  datatype Cvr = Cvr(ballotStyleId: string, layouts: Option<seq<PageLayout>>, ballotImages: Option<seq<BallotImage>>)

  datatype WriteInImageEntry = WriteInImageEntry(image: string, ballotCoordinates: Rect, contestCoordinates: Rect, writeInCoordinates: Rect)

  /** zip over two lists; lists of different lengths are rejected. */
  function Zip<A, B>(a: seq<A>, b: seq<B>): (r: Result<seq<(A, B)>, string>)
    ensures r.Ok? <==> |a| == |b|
    ensures r.Ok? ==> |r.value| == |a| && forall i :: 0 <= i < |a| ==> r.value[i] == (a[i], b[i])
  {
    if |a| != |b| then Err(UnequalLengths)
    else Ok(seq(|a|, i requires 0 <= i < |a| => (a[i], b[i])))
  }

  /** The reduce that splits the sorted pairs back into two lists. */
  function Unzip<A, B>(pairs: seq<(A, B)>): (r: (seq<A>, seq<B>))
    ensures |r.0| == |pairs| && |r.1| == |pairs|
    ensures forall i :: 0 <= i < |pairs| ==> (r.0[i], r.1[i]) == pairs[i]
  {
    if pairs == [] then ([], [])
    else
      var rest := Unzip(pairs[..|pairs| - 1]);
      (rest.0 + [pairs[|pairs| - 1].0], rest.1 + [pairs[|pairs| - 1].1])
  }

  function PageNumberOf(pair: (PageLayout, BallotImage)): int {
    pair.0.pageNumber
  }

  /** `indexOf`: the first position of x, or -1. */
  function IndexOf<T(==)>(xs: seq<T>, x: T): (r: int)
    ensures r == -1 <==> x !in xs
    ensures r != -1 ==> 0 <= r < |xs| && xs[r] == x && forall j :: 0 <= j < r ==> xs[j] != x
  {
    if xs == [] then -1
    else if xs[0] == x then 0
    else
      var rest := IndexOf(xs[1..], x);
      if rest == -1 then -1 else rest + 1
  }

  /** Layouts and images after the sort by page number, and the index of
      the contest among the ballot style's contests. */
  datatype Prepared = Prepared(layouts: seq<PageLayout>, images: seq<BallotImage>, contestIndex: int)

  /** Everything before the page walk: a record without layouts or images
      has no write-in images (None); an unknown ballot style or lists of
      different lengths are errors. */
  function Prepare(election: Elections.Election, cvr: Cvr, contestId: string): (r: Result<Option<Prepared>, string>)
    ensures cvr.layouts.None? || cvr.ballotImages.None? ==> r == Ok(None)
    ensures cvr.layouts.Some? && cvr.ballotImages.Some? ==>
      (r.Err? <==> Elections.GetBallotStyle(election, cvr.ballotStyleId).None? || |cvr.layouts.value| != |cvr.ballotImages.value|)
    ensures cvr.layouts.Some? && cvr.ballotImages.Some? && r.Ok? ==> r.value.Some?
    ensures r.Ok? && r.value.Some? ==>
      var p := r.value.value;
      && cvr.layouts.Some? && cvr.ballotImages.Some?
      && |p.layouts| == |p.images| == |cvr.layouts.value| == |cvr.ballotImages.value|
      && (forall i, j :: 0 <= i < j < |p.layouts| ==> p.layouts[i].pageNumber <= p.layouts[j].pageNumber)
      && multiset(Zip(p.layouts, p.images).value) == multiset(Zip(cvr.layouts.value, cvr.ballotImages.value).value)
      && p.contestIndex == IndexOf(Elections.Ids(Elections.GetContests(Elections.GetBallotStyle(election, cvr.ballotStyleId).value, election)), contestId)
  {
    var ballotStyle := Elections.GetBallotStyle(election, cvr.ballotStyleId);
    if cvr.layouts.None? || cvr.ballotImages.None? then Ok(None)
    else if ballotStyle.None? then Err(UnexpectedTypes)
    else
      var ids := Elections.Ids(Elections.GetContests(ballotStyle.value, election));
      var zipped := Zip(cvr.layouts.value, cvr.ballotImages.value);
      if zipped.Err? then Err(zipped.error)
      else
        var sorted := SortBy(zipped.value, PageNumberOf);
        SortBySorted(zipped.value, PageNumberOf);
        var unzipped := Unzip(sorted);
        assert forall i :: 0 <= i < |sorted| ==> sorted[i] == (unzipped.0[i], unzipped.1[i]);
        var p := Prepared(unzipped.0, unzipped.1, IndexOf(ids, contestId));
        assert Zip(p.layouts, p.images).value == sorted;
        Ok(Some(p))
  }

  /** The walk as written, from `page` with the running index `idx`: when
      the index is past the page, step to the next page and subtract THAT
      page's contest count; stepping past the last page is an error. */
  function WalkFrom(layouts: seq<PageLayout>, page: nat, idx: int): (r: Result<(nat, int), string>)
    requires page < |layouts|
    ensures r.Ok? ==> page <= r.value.0 < |layouts| && r.value.1 < |layouts[r.value.0].contests|
    ensures r.Err? ==> r.error == UnexpectedTypes
    ensures idx < |layouts[page].contests| ==> r == Ok((page, idx))
    ensures page == |layouts| - 1 && idx >= |layouts[page].contests| ==> r.Err?
    decreases |layouts| - page
  {
    if idx >= |layouts[page].contests| then
      if page + 1 >= |layouts| then Err(UnexpectedTypes)
      else WalkFrom(layouts, page + 1, idx - |layouts[page + 1].contests|)
    else Ok((page, idx))
  }

  /** The whole walk as written; no layouts at all is an error. */
  function WalkAsWritten(layouts: seq<PageLayout>, contestIndex: int): (r: Result<(nat, int), string>)
    ensures r.Ok? ==> r.value.0 < |layouts| && r.value.1 < |layouts[r.value.0].contests|
    ensures |layouts| == 0 ==> r.Err?
    ensures r.Err? ==> r.error == UnexpectedTypes
    ensures |layouts| > 0 && contestIndex < |layouts[0].contests| ==> r == Ok((0, contestIndex))
  {
    if |layouts| == 0 then Err(UnexpectedTypes) else WalkFrom(layouts, 0, contestIndex)
  }

  /** The loop of the locator, kept as written. */
  method WalkPages(layouts: seq<PageLayout>, contestIndex: int) returns (r: Result<(nat, int), string>)
    ensures r == WalkAsWritten(layouts, contestIndex)
  {
    var contestIdx := contestIndex;
    var currentLayoutOptionIdx: nat := 0;
    var hasLayout := currentLayoutOptionIdx < |layouts|;
    while hasLayout && contestIdx >= |layouts[currentLayoutOptionIdx].contests|
      invariant hasLayout <==> currentLayoutOptionIdx < |layouts|
      invariant hasLayout ==> WalkAsWritten(layouts, contestIndex) == WalkFrom(layouts, currentLayoutOptionIdx, contestIdx)
      invariant !hasLayout ==> |layouts| == 0
      decreases |layouts| - currentLayoutOptionIdx
    {
      currentLayoutOptionIdx := currentLayoutOptionIdx + 1;
      if currentLayoutOptionIdx >= |layouts| {
        return Err(UnexpectedTypes);
      }
      contestIdx := contestIdx - |layouts[currentLayoutOptionIdx].contests|;
    }
    if currentLayoutOptionIdx >= |layouts| {
      return Err(UnexpectedTypes);
    }
    r := Ok((currentLayoutOptionIdx, contestIdx));
  }

  /** The corrected walk: subtract the count of the page being left. */
  function CorrectedWalkFrom(layouts: seq<PageLayout>, page: nat, idx: int): (r: Result<(nat, int), string>)
    requires page < |layouts|
    ensures r.Ok? ==> page <= r.value.0 < |layouts| && r.value.1 < |layouts[r.value.0].contests|
    decreases |layouts| - page
  {
    if idx >= |layouts[page].contests| then
      if page + 1 >= |layouts| then Err(UnexpectedTypes)
      else CorrectedWalkFrom(layouts, page + 1, idx - |layouts[page].contests|)
    else Ok((page, idx))
  }

  function CorrectedWalk(layouts: seq<PageLayout>, contestIndex: int): (r: Result<(nat, int), string>)
    ensures r.Ok? ==> r.value.0 < |layouts| && r.value.1 < |layouts[r.value.0].contests|
  {
    if |layouts| == 0 then Err(UnexpectedTypes) else CorrectedWalkFrom(layouts, 0, contestIndex)
  }

  /** The number of contests on the pages before `page`. */
  function ContestsBefore(layouts: seq<PageLayout>, page: nat): nat
    requires page <= |layouts|
  {
    if page == 0 then 0 else ContestsBefore(layouts, page - 1) + |layouts[page - 1].contests|
  }

  lemma {:induction false} CorrectedWalkFromDecomposes(layouts: seq<PageLayout>, page: nat, idx: int, k: int)
    requires page < |layouts| && 0 <= idx && k == ContestsBefore(layouts, page) + idx
    ensures CorrectedWalkFrom(layouts, page, idx).Ok? <==> k < ContestsBefore(layouts, |layouts|)
    ensures CorrectedWalkFrom(layouts, page, idx).Ok? ==>
      var (p, i) := CorrectedWalkFrom(layouts, page, idx).value;
      0 <= i && ContestsBefore(layouts, p) + i == k
    decreases |layouts| - page
  {
    if idx >= |layouts[page].contests| {
      if page + 1 < |layouts| {
        CorrectedWalkFromDecomposes(layouts, page + 1, idx - |layouts[page].contests|, k);
      } else {
        assert page + 1 == |layouts|;
      }
    } else {
      ContestsBeforeGrows(layouts, page + 1, |layouts|);
    }
  }

  lemma {:induction false} ContestsBeforeGrows(layouts: seq<PageLayout>, a: nat, b: nat)
    requires a <= b <= |layouts|
    ensures ContestsBefore(layouts, a) <= ContestsBefore(layouts, b)
    decreases b - a
  {
    if a < b {
      ContestsBeforeGrows(layouts, a, b - 1);
    }
  }

  /** The corrected walk succeeds exactly for the indices 0 .. total - 1
      and returns the page p and local index i with
      (contests before p) + i == the global index. */
  lemma CorrectedWalkDecomposes(layouts: seq<PageLayout>, k: nat)
    ensures CorrectedWalk(layouts, k).Ok? <==> k < ContestsBefore(layouts, |layouts|)
    ensures CorrectedWalk(layouts, k).Ok? ==>
      var (p, i) := CorrectedWalk(layouts, k).value;
      0 <= i < |layouts[p].contests| && ContestsBefore(layouts, p) + i == k
  {
    if |layouts| > 0 {
      CorrectedWalkFromDecomposes(layouts, 0, k, k);
    }
  }

  predicate EqualCounts(layouts: seq<PageLayout>, c: nat) {
    forall i :: 0 <= i < |layouts| ==> |layouts[i].contests| == c
  }

  lemma {:induction false} EqualCountsWalksAgree(layouts: seq<PageLayout>, c: nat, page: nat, idx: int)
    requires EqualCounts(layouts, c) && page < |layouts|
    ensures WalkFrom(layouts, page, idx) == CorrectedWalkFrom(layouts, page, idx)
    decreases |layouts| - page
  {
    if idx >= |layouts[page].contests| && page + 1 < |layouts| {
      EqualCountsWalksAgree(layouts, c, page + 1, idx - c);
    }
  }

  lemma {:induction false} ContestsBeforeEqual(layouts: seq<PageLayout>, c: nat, page: nat)
    requires EqualCounts(layouts, c) && page <= |layouts|
    ensures ContestsBefore(layouts, page) == page * c
  {
    if page > 0 {
      ContestsBeforeEqual(layouts, c, page - 1);
    }
  }

  /** With c contests on every page, the walk as written finds the page
      and index with page * c + index == the global index. */
  lemma EqualCountsDecomposition(layouts: seq<PageLayout>, c: nat, k: nat)
    requires EqualCounts(layouts, c) && k < |layouts| * c
    ensures WalkAsWritten(layouts, k).Ok?
    ensures var (p, i) := WalkAsWritten(layouts, k).value; 0 <= i < c && p * c + i == k
  {
    EqualCountsWalksAgree(layouts, c, 0, k);
    ContestsBeforeEqual(layouts, c, |layouts|);
    CorrectedWalkDecomposes(layouts, k);
    var (p, i) := CorrectedWalk(layouts, k).value;
    ContestsBeforeEqual(layouts, c, p);
  }

  /** `option.definition?.id.startsWith('write-in')`. */
  predicate IsWriteIn(o: OptionLayout) {
    o.definitionId.Some? && |o.definitionId.value| >= |WriteInPrefix| &&
    o.definitionId.value[..|WriteInPrefix|] == WriteInPrefix
  }

  function Reverse<T>(xs: seq<T>): (r: seq<T>)
    ensures |r| == |xs| && forall i :: 0 <= i < |xs| ==> r[i] == xs[|xs| - 1 - i]
  {
    if xs == [] then [] else Reverse(xs[1..]) + [xs[0]]
  }

  /** The write-in options, last laid out first. */
  function WriteInOptions(contest: ContestLayout): (r: seq<OptionLayout>)
    ensures var ws := Filter(contest.options, IsWriteIn);
      |r| == |ws| && forall i :: 0 <= i < |r| ==> r[i] == ws[|ws| - 1 - i]
    ensures forall i :: 0 <= i < |r| ==> IsWriteIn(r[i])
    ensures forall i :: 0 <= i < |contest.options| && IsWriteIn(contest.options[i]) ==> contest.options[i] in r
  {
    var ws := Filter(contest.options, IsWriteIn);
    var r := Reverse(ws);
    assert forall i :: 0 <= i < |r| ==> IsWriteIn(r[i]) by {
      forall i | 0 <= i < |r| ensures IsWriteIn(r[i]) {
        assert r[i] == ws[|ws| - 1 - i];
      }
    }
    assert forall i :: 0 <= i < |contest.options| && IsWriteIn(contest.options[i]) ==> contest.options[i] in r by {
      forall i | 0 <= i < |contest.options| && IsWriteIn(contest.options[i]) ensures contest.options[i] in r {
        var j :| 0 <= j < |ws| && ws[j] == contest.options[i];
        assert r[|ws| - 1 - j] == ws[j];
      }
    }
    r
  }

  /** `optionId.slice('write-in-'.length)`. */
  function Skip(s: string, n: nat): string {
    if |s| >= n then s[n..] else []
  }

  /** The slot number after 'write-in-': a non-empty string of decimal
      digits, and an error otherwise. */
  function ParseSlot(s: string): (r: Result<nat, string>)
    ensures r.Ok? <==> |s| > 0 && forall i :: 0 <= i < |s| ==> Filenames.IsDigit(s[i])
  {
    if |s| > 0 && forall i :: 0 <= i < |s| ==> Filenames.IsDigit(s[i]) then Ok(Filenames.DecimalValue(s))
    else Err(UnexpectedTypes)
  }

  lemma SlotRoundTrip(n: nat)
    ensures ParseSlot(Skip("write-in-" + Filenames.Decimal(n), WriteInIdPrefixLength)) == Ok(n)
  {
    assert ("write-in-" + Filenames.Decimal(n))[WriteInIdPrefixLength..] == Filenames.Decimal(n);
    Filenames.DecimalRoundTrip(n);
  }

  /** The walk landed on a contest of a page that has an image, and the
      option id names a write-in slot of that contest. */
  predicate FinishSucceeds(p: Prepared, walked: Result<(nat, int), string>, optionId: string) {
    && walked.Ok?
    && var (page, idx) := walked.value;
    && page < |p.layouts| && page < |p.images| && 0 <= idx < |p.layouts[page].contests|
    && ParseSlot(Skip(optionId, WriteInIdPrefixLength)).Ok?
    && ParseSlot(Skip(optionId, WriteInIdPrefixLength)).value < |WriteInOptions(p.layouts[page].contests[idx])|
  }

  /** Everything after the page walk: pick the contest layout, the
      write-in slot and the page image, and report the bounds, the page
      itself being the rectangle of its size at the origin. */
  function Finish(p: Prepared, walked: Result<(nat, int), string>, optionId: string): (r: Result<seq<WriteInImageEntry>, string>)
    ensures walked.Err? ==> r == Err(walked.error)
    ensures r.Ok? <==> FinishSucceeds(p, walked, optionId)
    ensures r.Ok? ==>
      var (page, idx) := walked.value;
      var n := ParseSlot(Skip(optionId, WriteInIdPrefixLength)).value;
      && page < |p.layouts| && page < |p.images| && 0 <= idx < |p.layouts[page].contests|
      && var contest := p.layouts[page].contests[idx];
      && n < |WriteInOptions(contest)|
      && r.value == [WriteInImageEntry(
           p.images[page].normalized,
           Rect(0, 0, p.layouts[page].pageSize.width, p.layouts[page].pageSize.height),
           contest.bounds,
           WriteInOptions(contest)[n].bounds)]
  {
    match walked
    case Err(e) => Err(e)
    case Ok((page, idx)) =>
      if !(page < |p.layouts| && 0 <= idx < |p.layouts[page].contests|) then Err(UnexpectedTypes)
      else
        var contest := p.layouts[page].contests[idx];
        var writeIns := WriteInOptions(contest);
        var slot := ParseSlot(Skip(optionId, WriteInIdPrefixLength));
        if slot.Err? then Err(UnexpectedTypes)
        else if slot.value >= |writeIns| || page >= |p.images| then Err(UnexpectedTypes)
        else
          var size := p.layouts[page].pageSize;
          Ok([WriteInImageEntry(p.images[page].normalized, Rect(0, 0, size.width, size.height), contest.bounds, writeIns[slot.value].bounds)])
  }

  /** The locator with the walk as written: no images means no entries, an
      error before the walk is passed on, and otherwise the result is what
      the final step makes of the walk's page and index. */
  function LocateWriteInAsWritten(election: Elections.Election, cvr: Cvr, contestId: string, optionId: string): (r: Result<seq<WriteInImageEntry>, string>)
    ensures cvr.layouts.None? || cvr.ballotImages.None? ==> r == Ok([])
    ensures Prepare(election, cvr, contestId).Err? ==> r.Err?
    ensures Prepare(election, cvr, contestId).Ok? && Prepare(election, cvr, contestId).value.Some? ==>
      var p := Prepare(election, cvr, contestId).value.value;
      && (r.Ok? <==> FinishSucceeds(p, WalkAsWritten(p.layouts, p.contestIndex), optionId))
      && r == Finish(p, WalkAsWritten(p.layouts, p.contestIndex), optionId)
  {
    match Prepare(election, cvr, contestId)
    case Err(e) => Err(e)
    case Ok(None) => Ok([])
    case Ok(Some(p)) => Finish(p, WalkAsWritten(p.layouts, p.contestIndex), optionId)
  }

  /** The locator with the corrected walk. */
  function LocateWriteIn(election: Elections.Election, cvr: Cvr, contestId: string, optionId: string): (r: Result<seq<WriteInImageEntry>, string>)
    ensures cvr.layouts.None? || cvr.ballotImages.None? ==> r == Ok([])
    ensures Prepare(election, cvr, contestId).Err? ==> r.Err?
    ensures Prepare(election, cvr, contestId).Ok? && Prepare(election, cvr, contestId).value.Some? ==>
      var p := Prepare(election, cvr, contestId).value.value;
      && (r.Ok? <==> FinishSucceeds(p, CorrectedWalk(p.layouts, p.contestIndex), optionId))
      && r == Finish(p, CorrectedWalk(p.layouts, p.contestIndex), optionId)
    ensures r.Ok? ==> |r.value| <= 1
    ensures r.Ok? && |r.value| == 1 ==>
      && Prepare(election, cvr, contestId).Ok? && Prepare(election, cvr, contestId).value.Some?
      && var p := Prepare(election, cvr, contestId).value.value;
      && CorrectedWalk(p.layouts, p.contestIndex).Ok?
      && var (page, idx) := CorrectedWalk(p.layouts, p.contestIndex).value;
      && 0 <= p.contestIndex && 0 <= idx
      && ContestsBefore(p.layouts, page) + idx == p.contestIndex
      && var contest := p.layouts[page].contests[idx];
      && var n := ParseSlot(Skip(optionId, WriteInIdPrefixLength)).value;
      && n < |WriteInOptions(contest)|
      && r.value[0].ballotCoordinates == Rect(0, 0, p.layouts[page].pageSize.width, p.layouts[page].pageSize.height)
      && r.value[0].contestCoordinates == contest.bounds
      && r.value[0].writeInCoordinates == WriteInOptions(contest)[n].bounds
      && r.value[0].image == p.images[page].normalized
  {
    match Prepare(election, cvr, contestId)
    case Err(e) => Err(e)
    case Ok(None) => Ok([])
    case Ok(Some(p)) =>
      var walked := CorrectedWalk(p.layouts, p.contestIndex);
      if p.contestIndex >= 0 then
        CorrectedWalkDecomposes(p.layouts, p.contestIndex);
        Finish(p, walked, optionId)
      else
        Finish(p, walked, optionId)
  }

  lemma {:induction false} NegativeIndexStaysOnFirstPage(layouts: seq<PageLayout>, k: int)
    requires |layouts| > 0 && k < 0
    ensures CorrectedWalk(layouts, k) == Ok((0, k)) && WalkAsWritten(layouts, k) == Ok((0, k))
  {
  }

  /** A contest missing from the ballot style (index -1) is an error in
      both versions of the locator. */
  lemma MissingContestIsError(election: Elections.Election, cvr: Cvr, contestId: string, optionId: string)
    requires Prepare(election, cvr, contestId).Ok? && Prepare(election, cvr, contestId).value.Some?
    requires Prepare(election, cvr, contestId).value.value.contestIndex == -1
    ensures LocateWriteIn(election, cvr, contestId, optionId).Err?
    ensures LocateWriteInAsWritten(election, cvr, contestId, optionId).Err?
  {
    var p := Prepare(election, cvr, contestId).value.value;
    if |p.layouts| > 0 {
      NegativeIndexStaysOnFirstPage(p.layouts, -1);
    }
  }

  /** Two pages holding two and three contests: the third contest overall
      (index 2) is the first one of page 2. The walk as written subtracts
      page 2's three contests and lands on index -1 there, so the locator
      fails; the corrected walk finds (page 1, index 0) and the locator
      returns the write-in's bounds. */
  lemma WalkSubtractsWrongPage(r: Rect, size: Size)
    ensures var contest := ContestLayout(r, [OptionLayout(Some("write-in-0"), r)]);
      var layouts := [PageLayout(1, size, [contest, contest]), PageLayout(2, size, [contest, contest, contest])];
      var p := Prepared(layouts, [BallotImage("front"), BallotImage("back")], 2);
      && WalkAsWritten(layouts, 2) == Ok((1, -1))
      && CorrectedWalk(layouts, 2) == Ok((1, 0))
      && Finish(p, WalkAsWritten(layouts, 2), "write-in-0").Err?
      && Finish(p, CorrectedWalk(layouts, 2), "write-in-0") ==
         Ok([WriteInImageEntry("back", Rect(0, 0, size.width, size.height), r, r)])
  {
    var option := OptionLayout(Some("write-in-0"), r);
    var contest := ContestLayout(r, [option]);
    var layouts := [PageLayout(1, size, [contest, contest]), PageLayout(2, size, [contest, contest, contest])];
    var p := Prepared(layouts, [BallotImage("front"), BallotImage("back")], 2);
    assert WalkFrom(layouts, 1, -1) == Ok((1, -1));
    assert WalkAsWritten(layouts, 2) == Ok((1, -1));
    assert CorrectedWalkFrom(layouts, 1, 0) == Ok((1, 0));
    assert CorrectedWalk(layouts, 2) == Ok((1, 0));
    assert "write-in-0"[..|WriteInPrefix|] == WriteInPrefix;
    assert IsWriteIn(option);
    assert Filter([option], IsWriteIn) == [option];
    assert WriteInOptions(contest) == [option];
    assert Skip("write-in-0", WriteInIdPrefixLength) == "0";
    assert Filenames.DecimalValue("0") == 0;
    assert ParseSlot("0") == Ok(0);
  }
}
