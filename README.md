# vxsuite decision procedures in Dafny

This project models the small, self-contained decision procedures of the
vxsuite voting-system front ends and proves what they promise. The tally
engine and the write-in store are not modelled; their results are inputs.
The project covers:

- **Precinct scanner** (`PrecinctScanner`). The app-state reducer, the
  rule that persists state only after it was initialised from storage, and
  the decision to scan or accept a ballot automatically.
- **Election manager** (`ElectionManager`). The result-file bookkeeping,
  as a class `App` over a key/value storage map: saving CVR files and
  external tallies, resets by file type, configuring an election, adding
  printed ballots, loading from storage, and the election-hash check.
- **Tally report** (`TallyReport`). Which parties and precincts a report
  covers, the title and file-suffix precedence, the outer header's
  filters, and the party-major cross product of printed sections with the
  filters each one passes.
- **Election helpers** (`Elections`). Contest and ballot-style selection,
  the per-precinct flattening, language lookup, and the ballot PDF file
  name.
- **File names** (`Filenames`). `sanitizeString` and the export-package
  file name with its time stamp.
- **Write-in image locator** (`WriteInImage`). The layout/image sorting
  and unzip, the page walk (as written and corrected), the write-in slot
  choice, and the returned bounds.
- **Sample CVR generator** (`SampleCvr`). The argument defaults, the trim
  and grow loops, and what `main` writes.
- **PINs** (`Pins`). `generatePin` and `hyphenatePin`.
- **USB drive** (`UsbDrive`, `BsdApp`). `getStatus` and the mount/unmount
  guards. On the BSD app: the recently-ejected display rule, its polling,
  `isScanning`, export gating, pending batch deletes, card processing and
  the exported ballot count.
- **`gts-spread-like-types`** (`SpreadRule`). The lint rule's
  object/iterable classification and the diagnostic it reports.
- **`find` and `assertDefined`** (`Find`, `AssertDefined`), as pinned down
  by their tests.

Foreign inputs become parameters of the functions and methods:

- `sha256`;
- `dashify`;
- `moment`, as a broken-down date-time;
- `localeCompare`, as a rank function;
- `JSON.stringify` and the CVR-file import/export;
- the external-tally (de)serialisers;
- `getLabelForVotingMethod`;
- the language table and the default locale;
- the TypeScript checker, as a type tree and the collection flag;
- `randomBytes`, as a byte sequence.

`Math.random` becomes a nondeterministic choice (`:|`), so the proofs hold
for every index it could pick.

Shared modules:

- `Wrappers`: `Option` and `Result`.
- `Seqs`: filter, first match, distinct, flat-map and stable insertion
  sort, with their lemmas.

## Model

| member | source | states |
|---|---|---|
| PrecinctScanner.InitialStateFacts | frontends/precinct-scanner/src/app_root.tsx:102-125 | the initial state has polls closed, no config loaded, not initialised from storage, test mode off, no election or precinct, machine config 0000/dev |
| PrecinctScanner.AppReducer | frontends/precinct-scanner/src/app_root.tsx:145-203 | field by field, which action sets each field and to what; every other action leaves the field unchanged; a missing machine config falls back to the default |
| PrecinctScanner.TogglePollsTwice | frontends/precinct-scanner/src/app_root.tsx:189-193 | toggling the polls twice gives back the same state |
| PrecinctScanner.ConfigurationChangesClosePolls | frontends/precinct-scanner/src/app_root.tsx:163-173 | updating the election definition or precinct, or resetting the polls, always leaves the polls closed |
| PrecinctScanner.RefreshKeepsPolls | frontends/precinct-scanner/src/app_root.tsx:174-182 | a config refresh overwrites election, precinct and test mode, marks the config loaded, and keeps polls and initialisation |
| PrecinctScanner.StoredIsPollsOpen | frontends/precinct-scanner/src/app_root.tsx:289-294 | polls are open after loading exactly when storage holds `isPollsOpen: true`; a missing value means closed |
| PrecinctScanner.InitializeFromStorage | frontends/precinct-scanner/src/app_root.tsx:289-298 | initialising marks the state initialised and sets the polls from storage |
| PrecinctScanner.Persisted | frontends/precinct-scanner/src/app_root.tsx:305-317 | something is written exactly when the state was initialised from storage, and it is only `isPollsOpen` |
| PrecinctScanner.PersistRoundTrip | frontends/precinct-scanner/src/app_root.tsx:289-317 | reading back what was persisted gives the same polls flag |
| PrecinctScanner.NothingPersistedBeforeInitialization | frontends/precinct-scanner/src/app_root.tsx:305-313 | for any sequence of actions without initialisation, an uninitialised state never writes storage |
| PrecinctScanner.InitializedStaysInitialized | frontends/precinct-scanner/src/app_root.tsx:305-313 | once initialised, every later state persists exactly its polls flag |
| PrecinctScanner.AutoCommand | frontends/precinct-scanner/src/app_root.tsx:349-360 | scan iff voter mode, polls open, lock taken and `ready_to_scan`; accept iff the same with `ready_to_accept` |
| PrecinctScanner.NoCommandUnlessVoterModeAndPollsOpen | frontends/precinct-scanner/src/app_root.tsx:349-353 | outside voter mode, or with polls closed, no command is issued |
| ElectionManager.App.constructor | apps/election-manager/src/app_root.tsx:148-218 | the initial state: no definition, configuredAt '', the empty CVR file set, results unofficial, no external tallies, printed ballots not yet read |
| ElectionManager.WithoutSource | apps/election-manager/src/app_root.tsx:509-522 | keeps, in order, exactly the tallies from other sources |
| ElectionManager.WithoutSourceCounts | apps/election-manager/src/app_root.tsx:509-522 | every tally of the removed source disappears; every other tally keeps its multiplicity |
| ElectionManager.TruthyString | apps/election-manager/src/app_root.tsx:127-132 | a stored string is used exactly when it is present and non-empty |
| ElectionManager.StoredElectionDefinition | apps/election-manager/src/app_root.tsx:112-125 | a stored definition is rejected iff sha256 of its data differs from its hash; no stored definition gives none |
| ElectionManager.StoredPrintedBallots | apps/election-manager/src/app_root.tsx:220-227 | the stored list, or empty when none is stored |
| ElectionManager.App.SaveIsOfficialResults | apps/election-manager/src/app_root.tsx:180-191 | sets the flag and stores it; nothing else changes |
| ElectionManager.App.SaveCastVoteRecordFiles | apps/election-manager/src/app_root.tsx:383-411 | the empty set clears the flag and removes the cvr and official-results keys; a non-empty set stores its export and keeps the flag |
| ElectionManager.App.SaveExternalTallies | apps/election-manager/src/app_root.tsx:352-377 | an empty list removes its key, a non-empty one is stored serialised; the in-memory list is the new one |
| ElectionManager.App.ResetFiles | apps/election-manager/src/app_root.tsx:504-530 | CastVoteRecord empties the CVR files only; SEMS/Manual drop exactly that source's tallies; All empties both |
| ElectionManager.App.AddPrintedBallot | apps/election-manager/src/app_root.tsx:241-246 | the stored list gains exactly the new ballot at its end |
| ElectionManager.App.SaveElection | apps/election-manager/src/app_root.tsx:414-452 | clears storage and resets flag, files, tallies, ballots and definition; a definition is set, with its sha256 hash, only for non-empty JSON that parses |
| ElectionManager.App.LoadFromStorage | apps/election-manager/src/app_root.tsx:256-314 | loads the definition only while none is set, CVR files only while the set is still the empty one, external tallies only when none are loaded and a definition is stored; a rejected definition changes nothing; with no stored definition none is set and configuredAt is kept |
| ElectionManager.SavedDefinitionPassesHashCheck | apps/election-manager/src/app_root.tsx:112-125 | a definition saved by configuring passes the hash check when read back |
| TallyReport.StatusPrefix | apps/election-manager/src/screens/TallyReportScreen.tsx:68 | 'Official' exactly for official results, otherwise 'Unofficial' |
| TallyReport.BallotStylePartyIds | apps/election-manager/src/screens/TallyReportScreen.tsx:70-73 | the given party alone, otherwise the ballot styles' party ids without duplicates, every one present, in first-occurrence order |
| Seqs.DistinctPrefix | apps/election-manager/src/screens/TallyReportScreen.tsx:70-73 | the distinct values of a prefix are a prefix of the distinct values, the first-occurrence order a `Set` keeps |
| TallyReport.PrecinctIds | apps/election-manager/src/screens/TallyReportScreen.tsx:75-78 | 'all' gives every precinct id in election order; any other value a one-element list |
| TallyReport.PrecinctName | apps/election-manager/src/screens/TallyReportScreen.tsx:80-84 | no name for a missing id or 'all'; otherwise the found precinct's name, or the throw of `find` when it is missing |
| TallyReport.ReportDisplayTitle | apps/election-manager/src/screens/TallyReportScreen.tsx:86-110 | title and file suffix by the precedence precinct, scanner, all, party, voting method, default; an unknown party throws; every title starts with the status prefix and a space |
| TallyReport.SinglePrecinctId | apps/election-manager/src/screens/TallyReportScreen.tsx:123 | defined only when exactly one precinct id is selected, and then it is that id |
| TallyReport.OuterHeader | apps/election-manager/src/screens/TallyReportScreen.tsx:123-143 | internal and external outer tallies share the filter; counts by voting method are shown iff no voting-method filter is set |
| TallyReport.OuterHeaderPrecinct | apps/election-manager/src/screens/TallyReportScreen.tsx:123-126 | the outer tallies are narrowed to a precinct exactly when one is selected |
| TallyReport.SectionTitle | apps/election-manager/src/screens/TallyReportScreen.tsx:180-183 | the election title, prefixed by the party's full name when the party exists |
| TallyReport.MakeSection | apps/election-manager/src/screens/TallyReportScreen.tsx:185-331 | kind in the order precinct, scanner, voting method, overall; external tallies filtered by precinct and party only, and absent for scanner and voting-method sections |
| TallyReport.PairsAt | apps/election-manager/src/screens/TallyReportScreen.tsx:178-179 | the pairs are the party x precinct cross product, party-major: entry i*P+j is (party i, precinct j) |
| TallyReport.SectionsOf | apps/election-manager/src/screens/TallyReportScreen.tsx:178-331 | all sections are built iff each is, and section k belongs to pair k |
| TallyReport.SectionsAt | apps/election-manager/src/screens/TallyReportScreen.tsx:178-331 | section i*P+j is the section of party i and precinct j |
| Elections.GetContests | apps/election-manager/src/utils/election.ts:5-16 | the order-preserving subsequence of contests in the style's districts with the style's party, and all of them |
| Elections.GetPrecinctById | apps/election-manager/src/utils/election.ts:18-24 | a precinct with that id, none iff there is none |
| Elections.GetBallotStyle | apps/election-manager/src/utils/election.ts:26-32 | a ballot style with that id, none iff there is none |
| Elections.GetPartyFullNameFromBallotStyle | apps/election-manager/src/utils/election.ts:34-44 | an error iff the style is missing; '' when its party is not found; otherwise that party's full name |
| Elections.GetBallotStylesData | apps/election-manager/src/utils/election.ts:57-68 | one entry per style (same multiset), sorted by the collation rank of the style id |
| Elections.StyleDataIgnoresParty | apps/election-manager/src/utils/election.ts:62-64 | a contest of the style's districts is listed whatever its party, although getContests leaves it out |
| Elections.GetBallotStylesDataByStyle | apps/election-manager/src/utils/election.ts:70-80 | the concatenation, style by style, of one entry per precinct of the style |
| Elections.BallotStylesDataByStyleShape | apps/election-manager/src/utils/election.ts:70-80 | the length is the sum of the precinct-list lengths; the entry for (style i, precinct j) copies style i's data and carries precinct j |
| Elections.LanguageIgnoresRegion | apps/election-manager/src/utils/election.ts:89-90 | 'xx-REGION' gives the same language as 'xx': only the code before the first '-' is looked up |
| Elections.GetHumanBallotLanguageFormat | apps/election-manager/src/utils/election.ts:92-97 | for the default locale the default language alone, or no value when it is not in the table; otherwise 'default/other' |
| Elections.Locales | apps/election-manager/src/utils/election.ts:117-120 | the default locale iff the code is the default, otherwise 'default-code' |
| Elections.GetBallotFileName | apps/election-manager/src/utils/election.ts:99-125 | an error iff the precinct is missing; otherwise election-(first 10 of hash)-precinct-(dashed name)-id-(pid)-style-(bsid)-locale-(L).pdf |
| Filenames.SanitizeStringIsSanitized | apps/election-manager/src/utils/filenames.ts:10-15 | the output has only lowercase ASCII letters, digits and '-', no '--', and no leading or trailing '-' |
| Filenames.SanitizeStringKeepsAlnums | apps/election-manager/src/utils/filenames.ts:10-15 | the input's ASCII letters and digits survive in order, lowercased |
| Filenames.SanitizeStringIdempotent | apps/election-manager/src/utils/filenames.ts:10-15 | sanitising twice is sanitising once |
| Filenames.ReplaceRunsShape | apps/election-manager/src/utils/filenames.ts:12 | the result has only ASCII letters, digits and '-', no '--', the input's alphanumerics in order, is empty only for an empty input, and starts with '-' exactly when the input starts with a non-alphanumeric |
| Filenames.ReplaceRunsOfAlnums | apps/election-manager/src/utils/filenames.ts:12 | a string of ASCII letters and digits is left unchanged |
| Filenames.ReplaceRunsOfRun | apps/election-manager/src/utils/filenames.ts:12 | a maximal run of non-alphanumerics between alphanumerics (or the ends) becomes exactly one '-' |
| Filenames.ReplaceRunsSplit | apps/election-manager/src/utils/filenames.ts:12 | cut right after an alphanumeric, replacing runs works on each part separately |
| Filenames.TrimDashesShape | apps/election-manager/src/utils/filenames.ts:13 | on a string of alphanumerics and single dashes, trimming leaves no dash at either end, keeps only alphanumerics and single dashes, and keeps the alphanumerics |
| Filenames.TrimDashesKeepsInside | apps/election-manager/src/utils/filenames.ts:13 | trimming removes at most one '-' at each end and keeps everything in between |
| Filenames.DecimalRoundTrip | apps/election-manager/src/utils/filenames.ts:29 | reading back a number printed in decimal gives the number |
| Filenames.PadRoundTrip | apps/election-manager/src/utils/filenames.ts:8 | a zero-padded field has the requested width and reads back as the number |
| Filenames.FormatTimeLayout | apps/election-manager/src/utils/filenames.ts:8 | the time has the layout YYYY-MM-DD_HH-mm-ss, each field reading back as its value |
| Filenames.Prefix | apps/election-manager/src/utils/filenames.ts:25-28 | the first 10 (or fewer) characters of the hash, as slice does |
| Filenames.ExportPackageFilenameShape | apps/election-manager/src/utils/filenames.ts:18-31 | the name starts with the sanitised county, which has no '_', and then '_'; it ends with '__', the formatted time and '.zip' |
| Filenames.ExportPackageFilenameMiddle | apps/election-manager/src/utils/filenames.ts:24-30 | between the county's '_' and the '__' before the time lie the sanitised title, '_' and the first 10 characters of the hash |
| Filenames.SanitizeStringNoUnderscore | apps/election-manager/src/utils/filenames.ts:10-15 | a sanitised string never contains '_', so the '_' separators of the name are unambiguous |
| WriteInImage.Zip | services/admin/src/server.ts:489 | an error on unequal lengths, otherwise the i-th elements paired |
| WriteInImage.Unzip | services/admin/src/server.ts:491-497 | two lists of the pairs' length whose i-th elements form pair i |
| WriteInImage.IndexOf | services/admin/src/server.ts:498 | -1 iff absent, otherwise the first position of the id |
| WriteInImage.Prepare | services/admin/src/server.ts:478-498 | no images when layouts or images are missing; an error for a missing style or unequal lengths; otherwise layouts sorted by page, same pairs, and the contest's index; with both present there is always a page set |
| WriteInImage.WalkPages | services/admin/src/server.ts:498-512 | the loop computes the walk as written, subtracting the new page's contest count |
| WriteInImage.WalkFrom | services/admin/src/server.ts:501-508 | a successful walk from a page ends on that page or a later one, at an index below its contest count; an index already on the page stops there; an index past the last page is the 'unexpected types' error, the only error |
| WriteInImage.WalkAsWritten | services/admin/src/server.ts:498-508 | a stop is on an existing page at an index below its contest count; an index on the first page stops there; no layouts, like every failure, is the 'unexpected types' error |
| WriteInImage.CorrectedWalkDecomposes | services/admin/src/server.ts:498-514 | the corrected walk succeeds iff k is below the total, and then contests before the page plus the local index is k |
| WriteInImage.CorrectedWalk | services/admin/src/server.ts:498-508 | a successful corrected walk ends on a page at an index below its contest count |
| WriteInImage.EqualCountsWalksAgree | services/admin/src/server.ts:501-508 | with equal page counts the walk as written and the corrected walk agree |
| WriteInImage.EqualCountsDecomposition | services/admin/src/server.ts:498-514 | with c contests on every page, the walk as written gives page*c + idx == index |
| WriteInImage.WriteInOptions | services/admin/src/server.ts:517-519 | the options whose id starts with 'write-in', in reversed layout order |
| WriteInImage.ParseSlot | services/admin/src/server.ts:521-523 | a slot number exactly for a non-empty string of digits |
| WriteInImage.SlotRoundTrip | services/admin/src/server.ts:521-523 | 'write-in-N' yields slot N |
| WriteInImage.Finish | services/admin/src/server.ts:513-542 | a walk error is passed on; success iff the walk succeeded, the page has a layout and an image, the contest is on that page, and the slot parses and names an existing write-in option; then the page image, the page size at (0,0), and the contest and write-in bounds |
| WriteInImage.LocateWriteIn | services/admin/src/server.ts:478-542 | an empty list without layouts or images; a preparation error is passed on; otherwise success iff the corrected walk finishes, with at most one entry: the contest's page image, its bounds, and the bounds of the write-in option its slot names |
| WriteInImage.LocateWriteInAsWritten | services/admin/src/server.ts:478-542 | the locator as written: the same outcomes over the walk as written |
| WriteInImage.NegativeIndexStaysOnFirstPage | services/admin/src/server.ts:498-501 | a negative index never leaves the first page |
| WriteInImage.MissingContestIsError | services/admin/src/server.ts:498-530 | a contest missing from the ballot style ends in 'unexpected types' |
| WriteInImage.WalkSubtractsWrongPage | services/admin/src/server.ts:507 | pages of 2 and 3 contests, index 2: the walk as written lands on (1,-1) and fails; the corrected walk gives (1,0) |
| SampleCvr.OutputPath | libs/fixtures/src/cli/generate-sample-cvr-file/main.ts:95 | 'output.jsonl' unless a path is given |
| SampleCvr.TestMode | libs/fixtures/src/cli/generate-sample-cvr-file/main.ts:97 | test mode unless live ballots are asked for |
| SampleCvr.ScannerNames | libs/fixtures/src/cli/generate-sample-cvr-file/main.ts:98 | ['scanner'] by default, otherwise every name stringified |
| SampleCvr.Splice | libs/fixtures/src/cli/generate-sample-cvr-file/main.ts:113 | removes one element from a non-empty range, keeping the others in order; nothing beyond the end |
| SampleCvr.TrimRecords | libs/fixtures/src/cli/generate-sample-cvr-file/main.ts:111-114 | the corrected trim loop: numBallots records (none for a negative request), an order-preserving subsequence |
| SampleCvr.NegativeTrimNeverEnds | libs/fixtures/src/cli/generate-sample-cvr-file/main.ts:111-114 | with a negative request the loop guard holds for every list, the empty one included, and splicing the empty list leaves it empty |
| SampleCvr.CopiesOfAppend | libs/fixtures/src/cli/generate-sample-cvr-file/main.ts:121-124 | appending a copy of an existing record keeps every record's fields drawn from the originals |
| SampleCvr.GrowRecords | libs/fixtures/src/cli/generate-sample-cvr-file/main.ts:117-126 | originals kept as a prefix; new records carry id-L, id-L+1, ... and an original's other fields (none when there was none); the count reaches numBallots |
| SampleCvr.Resize | libs/fixtures/src/cli/generate-sample-cvr-file/main.ts:105-126 | the warning iff trimming is needed; the list is unchanged without numBallots, otherwise numBallots long (0 for negative), trimmed to an order-preserving subsequence or grown with sequential ids and copies of the originals |
| SampleCvr.Lines | libs/fixtures/src/cli/generate-sample-cvr-file/main.ts:128-132 | one JSON line per record, in order |
| SampleCvr.GenerateSampleCvrFile | libs/fixtures/src/cli/generate-sample-cvr-file/main.ts:82-138 | help exits 0; a missing election path exits 1 and writes nothing; a failed load throws; a successful load exits 0, writing one line per record of the list resized from the generated one to the output path, and reports the count |
| Pins.GeneratePin | libs/utils/src/pins.ts:11-27 | an error iff length < 1; otherwise exactly `length` decimal digits, digit i being bytes[i] mod 10, or '0' under the all-zero flag |
| Pins.HyphenatePin | libs/utils/src/pins.ts:33-43 | an error iff the segment length is < 1; otherwise the segments joined by '-' |
| Pins.SegmentsConcat | libs/utils/src/pins.ts:38-41 | the segments concatenate back to the pin |
| Pins.SegmentsLengths | libs/utils/src/pins.ts:38-41 | every segment but the last has the segment length; the last has 1 to that many characters |
| Pins.SegmentsCount | libs/utils/src/pins.ts:38-41 | no segments iff the pin is empty; otherwise ceil(len/seg) segments |
| Pins.HyphenatedLength | libs/utils/src/pins.ts:38-42 | an empty pin gives ''; otherwise one hyphen fewer than segments is inserted |
| Pins.HyphenateExample | libs/utils/src/pins.ts:29-32 | '123456' becomes '123-456' |
| UsbDrive.GetDevice | libs/utils/src/usbstick.ts:18-20 | the first reported drive, when there is one |
| UsbDrive.GetDevicePath | libs/utils/src/usbstick.ts:22-25 | the first drive's mount point, or none |
| UsbDrive.Kiosk.constructor | libs/utils/src/usbstick.ts:18-20 | the kiosk reports the given drive list and has received no command |
| UsbDrive.GetStatus | libs/utils/src/usbstick.ts:27-42 | notavailable iff no kiosk; absent iff no drive; mounted iff the first drive is mounted; present otherwise |
| UsbDrive.GetStatusNeverTransient | libs/utils/src/usbstick.ts:9-42 | never recentlyEjected or ejecting |
| UsbDrive.OnlyFirstDriveMatters | libs/utils/src/usbstick.ts:18-20 | status and path depend only on the first drive |
| UsbDrive.Kiosk.DoMount | libs/utils/src/usbstick.ts:44-51 | issues a mount for the first drive only when it exists unmounted; otherwise nothing |
| UsbDrive.Kiosk.DoUnmount | libs/utils/src/usbstick.ts:53-60 | issues an unmount and the 10000 ms flush delay only for a mounted drive; otherwise nothing |
| UsbDrive.CommandsMatchStatus | libs/utils/src/usbstick.ts:27-60 | the mount guard holds iff the status is present, the unmount guard iff mounted |
| BsdApp.DisplayUsbStatus | apps/bsd/src/AppRoot.tsx:326-329 | recentlyEjected when the flag is set and the drive is not ejecting, otherwise the raw status |
| BsdApp.DisplayRecentlyEjectedIff | apps/bsd/src/AppRoot.tsx:326-329 | over any polled status, the display says recently ejected iff the flag is set |
| BsdApp.App.DoEject | apps/bsd/src/AppRoot.tsx:305-309 | status ejecting and flag set; the drive is unmounted through the guarded unmount |
| BsdApp.App.PollUsb | apps/bsd/src/AppRoot.tsx:311-324 | status from the drive; a present drive is mounted only when the flag is clear; any other status clears the flag |
| BsdApp.App.ClearElectionJustLoaded | apps/bsd/src/AppRoot.tsx:335-342 | the just-loaded flag is cleared when the display says recently ejected |
| BsdApp.App.UpdateStatus | apps/bsd/src/AppRoot.tsx:127-145 | a fetch error stops scanning; a changed status recomputes isScanning as no adjudication left and some unfinished batch; an equal one keeps it |
| BsdApp.App.ScanBatch | apps/bsd/src/AppRoot.tsx:209-225 | scanning unless the reply is a status other than 'ok' |
| BsdApp.App.ContinueScanning | apps/bsd/src/AppRoot.tsx:227-243 | scanning, whatever the reply |
| BsdApp.VisibleBatches | apps/bsd/src/AppRoot.tsx:449-451 | the batches, in order, except those pending deletion |
| BsdApp.App.BeginDeleteBatch | apps/bsd/src/AppRoot.tsx:271-273 | the id is appended to the pending list, hiding that batch |
| BsdApp.App.EndDeleteBatch | apps/bsd/src/AppRoot.tsx:279-282 | every occurrence of the id leaves the pending list; the others stay |
| BsdApp.ExportButtonTitle | apps/bsd/src/AppRoot.tsx:398-405 | a reason iff export is disabled by remaining adjudication or no batches; adjudication takes precedence |
| BsdApp.EjectScreenDisablesExport | apps/bsd/src/AppRoot.tsx:379-405 | whenever the eject screen shows, export is disabled for pending adjudication |
| BsdApp.CountFromIsTotal | apps/bsd/src/AppRoot.tsx:496-499 | the reduce from an accumulator adds the batches' total count |
| BsdApp.ExportBallotCountAppend | apps/bsd/src/AppRoot.tsx:496-499 | the exported count is the sum of batch counts, growing by a batch's count when it is added |
| BsdApp.App.ProcessCardData | apps/bsd/src/AppRoot.tsx:182-195 | an admin card loads an election only when none is loaded, the card has a long value and no load is in progress |
| BsdApp.App.constructor | apps/bsd/src/AppRoot.tsx:58-88 | the initial state: drive absent, not recently ejected, no batches or adjudication, not scanning, no pending deletes, no election or hash, not loading |
| SpreadRule.IterableIff | libs/eslint-plugin-vx/src/rules/gts-spread-like-types.ts:11-13 | iterable iff the type has a property named '__@iterator' |
| SpreadRule.EveryObjectIff | libs/eslint-plugin-vx/src/rules/gts-spread-like-types.ts:16-18 | a union is an object type iff every member is |
| SpreadRule.AnyObjectIff | libs/eslint-plugin-vx/src/rules/gts-spread-like-types.ts:20-22 | an intersection is an object type iff some member is |
| SpreadRule.UnionAndIntersection | libs/eslint-plugin-vx/src/rules/gts-spread-like-types.ts:15-30 | the empty union is an object type and the empty intersection is not |
| SpreadRule.MemberDecides | libs/eslint-plugin-vx/src/rules/gts-spread-like-types.ts:15-22 | one non-object member makes a union non-object; one object member makes an intersection an object |
| SpreadRule.SpreadReport | libs/eslint-plugin-vx/src/rules/gts-spread-like-types.ts:59-103 | array and call spreads report their message iff not iterable; object spreads report iff not an object or a collection; any other parent throws; at most one report |
| SpreadRule.IterableSpreadsAllowed | libs/eslint-plugin-vx/src/rules/gts-spread-like-types.ts:68-82 | in an array or a call, no report iff the argument is iterable; the array message only inside an array |
| Find.Find | libs/utils/src/find.test.ts:2-10 | succeeds iff some element matches or a default is given |
| Find.FindReturnsFirstMatch | libs/utils/src/find.test.ts:3-8 | the first matching element is returned |
| Find.FindWithoutMatch | libs/utils/src/find.test.ts:4-9 | without a match, the default, or a throw when there is none |
| Find.FindTestCases | libs/utils/src/find.test.ts:2-10 | the four test expectations |
| AssertDefined.AssertDefined | apps/bmd/src/utils/assertDefined.test.ts:3-43 | the value unchanged iff it is neither null nor undefined; otherwise an error with the given message |
| AssertDefined.AssertDefinedTestCases | apps/bmd/src/utils/assertDefined.test.ts:3-43 | 0, an object (the same reference) and a string pass; null and undefined fail; the custom message is kept |

## Left out

- Rendering, React effects and timers are not modelled. Each callback
  and effect is one step: a method or a function call. Polling intervals,
  the scanner command lock's unlock and concurrency between callbacks are
  left out.
- Logging (`logger.log`, `console.log`, `window.alert`) is side-effect
  only and left out.
- The tally engine is not modelled: `computeFullElectionTally`,
  `filterTalliesByParams`, `filterExternalTalliesByParams`, the SEMS
  converters and the admin store. The model records which filter each
  report section would pass to it.
- `getBallotStylesDataByPrecinct` (the sort by precinct name through
  numeric collation) is not modelled.
- Command-line parsing (yargs), its failure handler, reading the election
  file and `generateCvrs` are parameters of `GenerateSampleCvrFile`.
  Non-integer `numBallots` values are not modelled.
- The `zip` of the iterator library is not part of this model. `Zip`
  assumes it rejects lists of unequal length.
- `safeParseNumber` is approximated. `ParseSlot` accepts exactly a
  non-empty string of decimal digits; signs, decimals and exponents are
  not modelled.
- `Pins.HyphenatePin` and `Pins.GeneratePin` take integers. A fractional
  `length` or `segmentLength`, such as `hyphenatePin('123456', 1.5)`, is
  not modelled.
- `toLocaleLowerCase` is ASCII lowercasing here. Locale-specific case
  rules are not modelled.
- The time stamp is a broken-down date-time that `moment` is assumed to
  have produced. Years above 9999 are not modelled.
- The comparison `JSON.stringify(prevStatus) === JSON.stringify(newStatus)`
  is modelled as value equality of the status.
- `CastVoteRecordFiles.empty` is compared by identity in the source. The
  model has one distinguished `EmptyFiles` value.
- `UsbDrive.Kiosk`: the kiosk's commands are recorded, not performed.
  The drive list does not change when a mount or unmount is issued.
- `Elections.GetBallotStylesData`: the sort is stable by an integer rank
  that stands for `localeCompare` with numeric collation.
- `TallyReport.ReportDisplayTitle`: an empty precinct name falls through
  like a missing one, as `||` does in the source.

## Findings

| source | as written | input that shows it | evidently intended | confidence | as-written member | corrected member |
|---|---|---|---|---|---|---|
| services/admin/src/server.ts:507 | after moving to the next page, the walk subtracts the contest count of the page it moved to | pages holding 2 and 3 contests, contest index 2: the walk ends at (page 1, index -1) and the locator throws 'unexpected types' | subtract the count of the page just left, so that contests before the page plus the local index is the global index | not executed | WriteInImage.WalkSubtractsWrongPage | WriteInImage.CorrectedWalkDecomposes |
| libs/fixtures/src/cli/generate-sample-cvr-file/main.ts:111-114 | the trim loop runs while `numBallots < castVoteRecords.length` | a negative `numBallots` such as -1: once the list is empty, -1 < 0 still holds and splicing the empty list changes nothing, so the loop never ends | stop at the empty list, writing no records | not executed | SampleCvr.NegativeTrimNeverEnds | SampleCvr.TrimRecords |
