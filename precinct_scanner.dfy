/** The precinct scanner's front-end state machine
    (frontends/precinct-scanner/src/app_root.tsx): the initial state, the
    reducer over its closed set of actions, the rule that persists state
    only after it was initialised from storage, and the decision to send
    the scanner a scan or accept command. */
module PrecinctScanner {
  import opened Wrappers

  datatype MachineConfig = MachineConfig(machineId: string, codeVersion: string)

  /** The election definition is carried, never inspected, by the reducer. */
  datatype ElectionDefinition = ElectionDefinition(electionData: string, electionHash: string)

  datatype State = State(
    machineConfig: MachineConfig,
    isScannerConfigLoaded: bool,
    electionDefinition: Option<ElectionDefinition>,
    currentPrecinctId: Option<string>,
    isTestMode: bool,
    isPollsOpen: bool,
    initializedFromStorage: bool)

  datatype Action =
    | InitializeAppState(pollsOpen: bool)
    | ResetPollsToClosed
    | UpdateElectionDefinition(definition: Option<ElectionDefinition>)
    | RefreshConfigFromScanner(scannerDefinition: Option<ElectionDefinition>, testMode: bool, scannerPrecinctId: Option<string>)
    | UpdatePrecinctId(precinctId: Option<string>)
    | TogglePollsOpen
    | SetMachineConfig(config: Option<MachineConfig>)

  const DefaultMachineConfig := MachineConfig("0000", "dev")

  const InitialState := State(DefaultMachineConfig, false, None, None, false, false, false)

  lemma InitialStateFacts()
    ensures !InitialState.isPollsOpen && !InitialState.isScannerConfigLoaded
    ensures !InitialState.initializedFromStorage && !InitialState.isTestMode
    ensures InitialState.electionDefinition.None? && InitialState.currentPrecinctId.None?
    ensures InitialState.machineConfig.machineId == "0000" && InitialState.machineConfig.codeVersion == "dev"
  {
  }

  /** appReducer, field by field: what each action sets, and that every
      other field is carried over. */
  function AppReducer(state: State, action: Action): (r: State)
    ensures r.machineConfig ==
      if action.SetMachineConfig? then action.config.GetOr(DefaultMachineConfig) else state.machineConfig
    ensures r.isScannerConfigLoaded == (state.isScannerConfigLoaded || action.RefreshConfigFromScanner?)
    ensures r.electionDefinition ==
      match action
      case UpdateElectionDefinition(d) => d
      case RefreshConfigFromScanner(d, _, _) => d
      case _ => state.electionDefinition
    ensures r.currentPrecinctId ==
      match action
      case RefreshConfigFromScanner(_, _, p) => p
      case UpdatePrecinctId(p) => p
      case _ => state.currentPrecinctId
    ensures r.isTestMode == if action.RefreshConfigFromScanner? then action.testMode else state.isTestMode
    ensures r.isPollsOpen ==
      match action
      case InitializeAppState(open) => open
      case TogglePollsOpen => !state.isPollsOpen
      case UpdateElectionDefinition(_) => false
      case ResetPollsToClosed => false
      case UpdatePrecinctId(_) => false
      case _ => state.isPollsOpen
    ensures r.initializedFromStorage == (state.initializedFromStorage || action.InitializeAppState?)
  {
    match action
    case InitializeAppState(open) => state.(isPollsOpen := open, initializedFromStorage := true)
    case UpdateElectionDefinition(d) => state.(electionDefinition := d, isPollsOpen := false)
    case ResetPollsToClosed => state.(isPollsOpen := false)
    case RefreshConfigFromScanner(d, testMode, p) =>
      state.(electionDefinition := d, currentPrecinctId := p, isTestMode := testMode, isScannerConfigLoaded := true)
    case UpdatePrecinctId(p) => state.(currentPrecinctId := p, isPollsOpen := false)
    case TogglePollsOpen => state.(isPollsOpen := !state.isPollsOpen)
    case SetMachineConfig(c) => state.(machineConfig := c.GetOr(DefaultMachineConfig))
  }

  /** Toggling the polls twice changes nothing. */
  lemma TogglePollsTwice(state: State)
    ensures AppReducer(AppReducer(state, TogglePollsOpen), TogglePollsOpen) == state
  {
  }

  /** Changing the election, the precinct or resetting always leaves the
      polls closed, whatever state they start from. */
  lemma ConfigurationChangesClosePolls(state: State, action: Action)
    requires action.UpdateElectionDefinition? || action.UpdatePrecinctId? || action.ResetPollsToClosed?
    ensures !AppReducer(state, action).isPollsOpen
  {
  }

  /** Refreshing the configuration from the scanner leaves the polls and
      the storage flag as they were. */
  lemma RefreshKeepsPolls(state: State, d: Option<ElectionDefinition>, testMode: bool, p: Option<string>)
    ensures var r := AppReducer(state, RefreshConfigFromScanner(d, testMode, p));
      r.isPollsOpen == state.isPollsOpen && r.initializedFromStorage == state.initializedFromStorage &&
      r.isScannerConfigLoaded && r.electionDefinition == d && r.currentPrecinctId == p && r.isTestMode == testMode
  {
  }

  /** The part of the state kept in storage; every field may be missing. */
  datatype StoredAppState = StoredAppState(storedPollsOpen: Option<bool>)

  /** updateStateFromStorage: nothing stored, or no stored flag, means
      polls closed. */
  function StoredIsPollsOpen(stored: Option<StoredAppState>): (r: bool)
    ensures r <==> stored.Some? && stored.value.storedPollsOpen == Some(true)
  {
    if stored.Some? then stored.value.storedPollsOpen.GetOr(InitialState.isPollsOpen) else InitialState.isPollsOpen
  }

  function InitializeFromStorage(state: State, stored: Option<StoredAppState>): (r: State)
    ensures r.initializedFromStorage && r.isPollsOpen == StoredIsPollsOpen(stored)
  {
    AppReducer(state, InitializeAppState(StoredIsPollsOpen(stored)))
  }

  /** storeAppState: what is written to storage after a change, if anything. */
  function Persisted(state: State): (r: Option<StoredAppState>)
    ensures r.Some? <==> state.initializedFromStorage
    ensures r.Some? ==> r.value == StoredAppState(Some(state.isPollsOpen))
  {
    if state.initializedFromStorage then Some(StoredAppState(Some(state.isPollsOpen))) else None
  }

  /** Whatever is persisted reads back as the same polls flag. */
  lemma PersistRoundTrip(state: State)
    requires state.initializedFromStorage
    ensures StoredIsPollsOpen(Persisted(state)) == state.isPollsOpen
  {
  }

  /** The state after a sequence of actions. */
  function Run(state: State, actions: seq<Action>): State
    decreases |actions|
  {
    if actions == [] then state else Run(AppReducer(state, actions[0]), actions[1..])
  }

  /** Until one InitializeAppState has been dispatched nothing is ever
      persisted: no other action sets the storage flag. */
  lemma {:induction false} NothingPersistedBeforeInitialization(state: State, actions: seq<Action>)
    requires !state.initializedFromStorage
    requires forall i :: 0 <= i < |actions| ==> !actions[i].InitializeAppState?
    ensures Persisted(Run(state, actions)).None?
    decreases |actions|
  {
    if actions != [] {
      NothingPersistedBeforeInitialization(AppReducer(state, actions[0]), actions[1..]);
    }
  }

  /** Once initialised, every later state is persisted. */
  lemma {:induction false} InitializedStaysInitialized(state: State, actions: seq<Action>)
    requires state.initializedFromStorage
    ensures Persisted(Run(state, actions)) == Some(StoredAppState(Some(Run(state, actions).isPollsOpen)))
    decreases |actions|
  {
    if actions != [] {
      InitializedStaysInitialized(AppReducer(state, actions[0]), actions[1..]);
    }
  }

  datatype ScannerState =
    | Connecting | Disconnected | NoPaper | ReadyToScan | Scanning | ReadyToAccept | Accepting | Accepted
    | NeedsReview | Returning | Returned | Rejecting | Rejected | Jammed | BothSidesHavePaper | Error
    | Unconfigured | Calibrating | Calibrated

  datatype Auth = Auth(status: string, reason: string)

  /** Logged out because no card is inserted. */
  predicate VoterMode(auth: Auth) {
    auth.status == "logged_out" && auth.reason == "no_card"
  }

  datatype Command = Scan | Accept | NoCommand

  /** automaticallyScanAndAcceptBallots; `lockAcquired` is whether the
      command lock could be taken, `scannerStatus` the last polled state. */
  function AutoCommand(auth: Auth, isPollsOpen: bool, lockAcquired: bool, scannerStatus: Option<ScannerState>): (r: Command)
    ensures r == Scan <==> VoterMode(auth) && isPollsOpen && lockAcquired && scannerStatus == Some(ReadyToScan)
    ensures r == Accept <==> VoterMode(auth) && isPollsOpen && lockAcquired && scannerStatus == Some(ReadyToAccept)
  {
    if !(VoterMode(auth) && isPollsOpen) then NoCommand
    else if !lockAcquired then NoCommand
    else if scannerStatus == Some(ReadyToScan) then Scan
    else if scannerStatus == Some(ReadyToAccept) then Accept
    else NoCommand
  }

  /** No command outside voter mode or with the polls closed. */
  lemma NoCommandUnlessVoterModeAndPollsOpen(auth: Auth, isPollsOpen: bool, lockAcquired: bool, scannerStatus: Option<ScannerState>)
    requires !VoterMode(auth) || !isPollsOpen
    ensures AutoCommand(auth, isPollsOpen, lockAcquired, scannerStatus) == NoCommand
  {
  }
}
