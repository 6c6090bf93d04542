# Water-level monitoring contract, modelled in Dafny

The repository simulates a flood-monitoring smart contract. Authorised data
providers submit water-level readings (river level and rainfall for a
location code). Each reading is judged against the location's flood
thresholds. A flood reading raises that location's flood alert: it starts a
new alert epoch at level 1, or goes up one level while the alert is active.
Alerts can be cleared. The host chain supplies the caller's identity and the
block height, which the contract uses as a timestamp.

The model has four modules:

- `WaterLevel` (`water_level.dfy`): the entities as datatypes (`Reading`,
  `Thresholds`, `Alert`, the contract `State`). Each operation is a pure
  function from a `State` to a `Transition`, which is the next state plus the
  response the caller gets (`Value(v)` for `{ value: v }`, `Error(c)` for
  `{ error: c }`). The module also has the two lookups with defaults
  (`ThresholdsInEffect`, `CurrentAlert`), the flood test
  `CheckFloodCondition`, the alert escalation `EscalatedAlert` /
  `UpdateFloodAlert`, and the invariant `Valid`. `Valid` says three things:
  - the readings are exactly the ids 1 .. `lastReadingId`;
  - every alert is at level 1 or more and names a flood reading of its own
    location;
  - every flood reading has raised its location's alert, and that alert names
    this reading or a later one.

  Together these say that each alert names the most recent flood reading of
  its location.
- `WaterLevelContract` (`ledger.dfy`): the contract object as the class
  `Ledger`. Its fields are the reading counter and the four maps, and its
  methods update them in place. Every public method is proved to move
  `Model()` exactly as the matching `WaterLevel` function moves the state,
  and to keep `Valid()`. The helper `UpdateFloodAlert` is proved only to
  update the alerts map as specified. It makes no promise about `Valid()`,
  since called on its own it can name a reading that does not exist. The
  getters are functions that read the fields.
- `WaterLevelLemmas` (`water_level_lemmas.dfy`): what each operation does,
  and that the invariant holds in every reachable state. It also covers runs
  of calls (`Run`, `SubmitAll`): ids are sequential, readings are permanent,
  and alert levels count flood readings within an epoch.
- `WaterLevelScenarios` (`scenarios.dfy`): the repository's test cases, plus
  a few more. Each runs against a fresh `Ledger`, returns what it observes,
  and states the expected values as postconditions.

The sender and the block height are explicit parameters of the methods that
use them (`SubmitWaterLevelReading` takes both; `SetFloodThresholds` and
`UpdateFloodAlert` take the height).

Both failures return `{ error: 1 }`
(`tests/water-level-monitoring.test.ts:26`, `:105`). The model names them
`ERR_UNAUTHORIZED` and `ERR_NO_ALERT`, and both are 1.

The test at `tests/water-level-monitoring.test.ts:255-277` says its reading
has "individual values below thresholds". In fact its rainfall, 60, reaches
the rainfall threshold of 50 on its own. `CombinedThresholdScenario`
reproduces that test as written. `CombinedOnlyScenario` (90/40 against
100/50/120) is a case where only the combined threshold decides.

In the code, `authorizeProvider`, `revokeProvider`, `setFloodThresholds` and
`clearFloodAlert` do not check who the sender is. The model keeps this: only
submission takes a sender.

## Model

| member | source | states |
|---|---|---|
| `WaterLevelContract.Ledger.constructor` | tests/water-level-monitoring.test.ts:14-19 | A new contract has counter 0 and four empty maps, and satisfies the invariant. |
| `WaterLevelContract.Ledger.SubmitWaterLevelReading` | tests/water-level-monitoring.test.ts:21-54 | The new state and the response are exactly those of the submission transition. The invariant is kept. |
| `WaterLevel.CheckFloodCondition` | tests/water-level-monitoring.test.ts:56-62 | A reading is not a flood exactly when river level, rainfall and their sum are all strictly below their thresholds. Against zero thresholds, a reading with a non-negative river level or rainfall is a flood. Partner lemmas: `FloodConditionMonotone`, `UnsetLocationAlwaysFloods`. |
| `WaterLevelContract.Ledger.UpdateFloodAlert` | tests/water-level-monitoring.test.ts:64-80 | Only the alerts map changes. The location's entry is replaced by the escalated alert: one level up with the start time kept if it was active, otherwise level 1 starting at the current height. |
| `WaterLevelContract.Ledger.SetFloodThresholds` | tests/water-level-monitoring.test.ts:82-91 | Overwrites the location's thresholds, stamped with the current height, and returns true. |
| `WaterLevelContract.Ledger.AuthorizeProvider` | tests/water-level-monitoring.test.ts:93-96 | Sets the provider's flag to true and returns true. |
| `WaterLevelContract.Ledger.RevokeProvider` | tests/water-level-monitoring.test.ts:98-101 | Sets the provider's flag to false and returns true. |
| `WaterLevelContract.Ledger.ClearFloodAlert` | tests/water-level-monitoring.test.ts:103-113 | Error 1 with no change when the location has no alert. Otherwise only `isActive` in the location's alert becomes false, and the call returns true. |
| `WaterLevelContract.Ledger.GetWaterLevelReading` | tests/water-level-monitoring.test.ts:115-117 | Gives the stored reading for the id, or None when there is none. In a valid ledger a reading is present exactly for the ids 1 .. lastReadingId. |
| `WaterLevelContract.Ledger.GetFloodThresholds` | tests/water-level-monitoring.test.ts:119-121 | Gives None exactly when the location has no stored record; a submission judges such a location against zero thresholds instead. Otherwise gives the stored record, which a submission also uses. |
| `WaterLevelContract.Ledger.GetFloodAlert` | tests/water-level-monitoring.test.ts:123-125 | Gives the stored alert of the location, or None when there is none. In a valid ledger an alert exists exactly when a flood reading was stored for the location. The alert is at level 1 or more and names a flood reading of that location. |
| `WaterLevelContract.Ledger.IsProviderAuthorized` | tests/water-level-monitoring.test.ts:127-129 | Gives the provider's stored flag, and false for a provider that has none. |
| `WaterLevelContract.Ledger.GetLastReadingId` | tests/water-level-monitoring.test.ts:131-133 | In a valid ledger the counter is the largest stored reading id (or 0 with no readings). |
| `WaterLevelLemmas.UnauthorizedSubmissionChangesNothing` | tests/water-level-monitoring.test.ts:21-27 | A sender that is absent or revoked gets error 1, and the whole state is unchanged. |
| `WaterLevelLemmas.AuthorizedSubmissionStoresReading` | tests/water-level-monitoring.test.ts:22-47 | Returns old counter + 1 and sets the counter to it. Stores under exactly that id the given location, levels and sensor, the current height, and the flood flag under the thresholds in effect. Thresholds and providers are unchanged. |
| `WaterLevelLemmas.UnsetLocationAlwaysFloods` | tests/water-level-monitoring.test.ts:29-36 | A location with no thresholds uses zeros, so a reading with a non-negative river level or rainfall is stored as a flood. |
| `WaterLevelLemmas.FloodConditionMonotone` | tests/water-level-monitoring.test.ts:56-62 | Raising the readings or lowering any threshold never turns a flood into a non-flood. |
| `WaterLevelLemmas.NonFloodKeepsAlerts` | tests/water-level-monitoring.test.ts:49-51 | A reading that is not a flood leaves the alerts map unchanged. |
| `WaterLevelLemmas.FloodUpdatesOwnAlert` | tests/water-level-monitoring.test.ts:49-51 | A flood reading changes or adds only its own location's alert. That alert names the new id and is active. An active alert goes up exactly one level and keeps its start time. A missing or cleared alert restarts at level 1 with the current height as start time. |
| `WaterLevelLemmas.SetThresholdsOverwrites` | tests/water-level-monitoring.test.ts:82-91 | The location's record becomes the given thresholds at the current height, and later submissions use it. No other location or field changes. |
| `WaterLevelLemmas.AuthorizeSetsFlag` | tests/water-level-monitoring.test.ts:93-96 | The provider becomes authorised, other providers keep their flags, a second call changes nothing, and no other field changes. |
| `WaterLevelLemmas.RevokeClearsFlag` | tests/water-level-monitoring.test.ts:98-101 | The provider becomes unauthorised, other providers keep their flags, a second call changes nothing, and readings and alerts are untouched. |
| `WaterLevelLemmas.LastProviderCallWins` | tests/water-level-monitoring.test.ts:93-101 | After any sequence of calls, a provider's authorisation is the flag its last authorise or revoke call gave. With no such call it is unchanged: submissions, thresholds and clearing never touch it. |
| `WaterLevelLemmas.NeverSetProviderUnauthorized` | tests/water-level-monitoring.test.ts:127-129 | From deployment, a provider that no authorise or revoke call named is not authorised. |
| `WaterLevelLemmas.ClearMissingAlertFails` | tests/water-level-monitoring.test.ts:103-106 | Clearing a location with no alert gives error 1 and leaves the state unchanged. |
| `WaterLevelLemmas.ClearKeepsAlertFields` | tests/water-level-monitoring.test.ts:107-112 | Clearing succeeds and makes only `isActive` false; level, start time and last reading id are kept. The location set, other alerts and the rest of the state are unchanged, and clearing twice is the same as once. |
| `WaterLevelLemmas.FloodAfterClearStartsNewEpoch` | tests/water-level-monitoring.test.ts:64-80 | After clearing, the next flood reading at the location gives level 1, the current height as start time and the new id. |
| `WaterLevelLemmas.InitialValid` | tests/water-level-monitoring.test.ts:14-19 | The fresh contract satisfies the invariant. |
| `WaterLevelLemmas.SubmitPreservesValid` | tests/water-level-monitoring.test.ts:21-54 | A submission keeps the invariant: readings 1 .. counter, and alerts consistent with the latest flood reading of each location. |
| `WaterLevelLemmas.ClearPreservesValid` | tests/water-level-monitoring.test.ts:103-113 | Clearing keeps the invariant. |
| `WaterLevelLemmas.ApplyPreservesValid` | tests/water-level-monitoring.test.ts:21-113 | Every single contract call keeps the invariant. |
| `WaterLevelLemmas.RunPreservesValid` | tests/water-level-monitoring.test.ts:21-113 | Any sequence of calls from a valid state ends in a valid state. |
| `WaterLevelLemmas.ReachableValid` | tests/water-level-monitoring.test.ts:14-113 | Every state reachable from deployment is valid. |
| `WaterLevelLemmas.ReadingsArePermanent` | tests/water-level-monitoring.test.ts:38-47 | A stored reading is never removed or rewritten by any later calls, and the counter never decreases. Revoking a provider keeps its earlier readings. |
| `WaterLevelLemmas.SequentialIds` | tests/water-level-monitoring.test.ts:22-53 | An authorised sender's submissions get counter+1, counter+2, …, with no gap or repeat. The counter ends at the old value plus the number of submissions. Thresholds and providers are unchanged. |
| `WaterLevelLemmas.FreshContractIds` | tests/water-level-monitoring.test.ts:22-53 | From a fresh contract with the sender authorised, the ids are 1, 2, 3, …. |
| `WaterLevelLemmas.UnauthorizedRunChangesNothing` | tests/water-level-monitoring.test.ts:21-27 | Any number of submissions by an unauthorised sender each get error 1 and leave the state unchanged. |
| `WaterLevelLemmas.QuietRunKeepsAlert` | tests/water-level-monitoring.test.ts:49-51 | If a run of submissions has no flood reading at a location, that location's alert (or its absence) is unchanged. |
| `WaterLevelLemmas.ActiveAlertEscalates` | tests/water-level-monitoring.test.ts:64-80 | While an alert is active, a run of submissions raises its level by exactly the number of flood readings at the location. The alert stays active and its start time is frozen. |
| `WaterLevelLemmas.EpochFrozenOverRun` | tests/water-level-monitoring.test.ts:64-113 | Over any sequence of calls that does not clear the location's alert, an active alert stays active, keeps its start time and never drops in level. The calls can be other senders' submissions, threshold changes, authorisations and revocations, or clears elsewhere. So an alert becomes inactive only by clearing it. |
| `WaterLevelLemmas.InactiveUntilFlood` | tests/water-level-monitoring.test.ts:64-113 | The converse of `EpochFrozenOverRun`, over any sequence of calls. A location with no alert, or an inactive one, stays without an active alert unless some call is an authorised sender's flood reading at that location (`FloodsAt`, judged in the state reached before that call). Threshold changes, authorisations and revocations, readings elsewhere and clears never activate it. |
| `WaterLevelLemmas.NewEpochCountsFloods` | tests/water-level-monitoring.test.ts:64-80 | If a missing or cleared alert is restarted by the first submission of a run, it ends active. Its level equals the number of flood readings at the location, and its start time is that first reading's height. |
| `WaterLevelScenarios.AuthorizeScenario` | tests/water-level-monitoring.test.ts:147-152 | Authorising returns true, and the provider is then authorised. |
| `WaterLevelScenarios.UnauthorizedSubmitScenario` | tests/water-level-monitoring.test.ts:154-164 | A submission before authorisation returns error 1, and no reading or id is created. |
| `WaterLevelScenarios.SubmitScenario` | tests/water-level-monitoring.test.ts:166-191 | The first reading gets id 1 and is stored as given at height 100, not a flood. |
| `WaterLevelScenarios.FloodAlertScenario` | tests/water-level-monitoring.test.ts:193-227 | A river level over its threshold creates an active level-1 alert starting at 100. A second flood raises it to level 2 and keeps start time 100. |
| `WaterLevelScenarios.ClearAlertScenario` | tests/water-level-monitoring.test.ts:229-253 | The alert is active before clearing; clearing returns true and leaves the alert inactive. |
| `WaterLevelScenarios.CombinedThresholdScenario` | tests/water-level-monitoring.test.ts:255-277 | A 70/60 reading against 100/50/120 is a flood and leaves an active alert; the rainfall alone reaches its threshold. |
| `WaterLevelScenarios.CombinedOnlyScenario` | tests/water-level-monitoring.test.ts:56-62 | A 90/40 reading against 100/50/120 is below both single thresholds, yet its sum reaches the combined one. It is stored as a flood and starts an alert at level 1. |
| `WaterLevelScenarios.QuietReadingKeepsAlertScenario` | tests/water-level-monitoring.test.ts:49-51 | After a 70/60 flood, a 50/30 reading is not a flood, and the alert stays at level 1 naming reading 1. |
| `WaterLevelScenarios.RevokeScenario` | tests/water-level-monitoring.test.ts:98-101 | After a revoke, the provider's next submission returns error 1, and its earlier reading is still stored. |
| `WaterLevelScenarios.ClearMissingAlertScenario` | tests/water-level-monitoring.test.ts:103-106 | Clearing a location that never had an alert returns error 1, and the location still has no alert. |

## Left out

- The mock Clarity environment (`tests/water-level-monitoring.test.ts:4-11`) is not modelled: the sender and block height are trusted method parameters. The chain runtime (consensus, signing, storage) is out of scope.
- The test harness (`describe`, `it`, `expect`, `beforeEach`) is not modelled. The reset in `beforeEach` is the `Ledger` constructor, and the test cases are the methods of `WaterLevelScenarios`.
- Levels, rainfall and thresholds are unbounded integers, not JavaScript floating-point numbers. The tests use only integers.
- JavaScript truthiness (`?.authorized || false`, `|| null`, `|| { …defaults… }`) is modelled as map membership. The stored values are always objects, so the two agree.
- Object aliasing is not modelled. `clearFloodAlert` flips `isActive` on the very object that an earlier `getFloodAlert` call returned, so a caller holding that object sees the change. The model's alerts are values, and clearing stores an updated copy.
- Block heights are not assumed to increase, so no relation between `startTime` and later readings' times is stated.
- `updateFloodAlert` and `checkFloodCondition` are public properties of the contract object (`tests/water-level-monitoring.test.ts:56`, `:64`). The model treats them as internal to submission. The call sequences of `Run` (and so `ReachableValid`) cover only the five state-changing operations. Calling `updateFloodAlert` directly, with a reading id that was never stored, can leave a state outside `Valid`. No property is stated for such calls.
- Reading ids are natural numbers, so the model cannot ask `getWaterLevelReading` for a negative or fractional id. The source accepts such an id and answers `null` (`tests/water-level-monitoring.test.ts:116`).
- A provider's flag is stored as a boolean rather than the source's `{ authorized: flag }` record.
