/**
 * The water-level monitoring contract as a pure state machine.
 *
 * The contract keeps a reading-id counter and four maps: readings by id,
 * flood thresholds by location, provider authorisation flags and flood
 * alerts by location. Every operation is a total transition from one
 * `State` to the next together with the response the caller sees,
 * `{ value: v }` or `{ error: code }`. The sender of a call and the current
 * block height come from the host chain; here they are parameters.
 *
 * The functions of this module are the specification that the methods of
 * `WaterLevelContract.Ledger` are proved against.
 */
module WaterLevel {

  datatype Option<T> = None | Some(value: T)

  /** What a contract call returns: `{ value: v }` or `{ error: code }`. */
  datatype Response<T> = Value(value: T) | Error(code: int)

  /** Error code of a submission by a sender that is not an authorised provider. */
  const ERR_UNAUTHORIZED: int := 1
  /** Error code of clearing the alert of a location that has none. */
  const ERR_NO_ALERT: int := 1

  /** A sensor reading; immutable once stored. */
  datatype Reading = Reading(
    locationCode: string,
    riverLevel: int,
    rainfallAmount: int,
    readingTime: nat,
    sensorId: string,
    isFloodCondition: bool)

  /** The flood thresholds of one location, stamped with the height they were set at. */
  datatype Thresholds = Thresholds(
    riverLevelThreshold: int,
    rainfallThreshold: int,
    combinedThreshold: int,
    lastUpdated: nat)

  /** The flood alert of one location. */
  datatype Alert = Alert(
    alertLevel: nat,
    startTime: nat,
    lastReadingId: nat,
    isActive: bool)

  /** The whole contract state; field names follow the contract object's. */
  datatype State = State(
    lastReadingId: nat,
    readings: map<nat, Reading>,
    thresholds: map<string, Thresholds>,
    providers: map<string, bool>,
    alerts: map<string, Alert>)

  /** The state after an operation together with the operation's response. */
  datatype Transition<T> = Transition(state: State, response: Response<T>)

  /** The arguments of one reading submission, with the block height it happens at. */
  datatype Submission = Submission(
    height: nat,
    locationCode: string,
    riverLevel: int,
    rainfallAmount: int,
    sensorId: string)

  /** The freshly deployed contract: counter 0, all maps empty. */
  const Initial: State := State(0, map[], map[], map[], map[])

  /** Thresholds used for a location that has none set. */
  const ZeroThresholds: Thresholds := Thresholds(0, 0, 0, 0)

  /** Alert used as the "current" one for a location that has none. */
  const NoAlert: Alert := Alert(0, 0, 0, false)

  /** A map lookup that signals absence instead of failing. */
  function Lookup<K, V>(m: map<K, V>, k: K): Option<V> {
    if k in m then Some(m[k]) else None
  }

  /** A provider is authorised when its flag is present and set; an unknown provider is not. */
  function ProviderAuthorized(providers: map<string, bool>, provider: string): bool {
    provider in providers && providers[provider]
  }

  /** The thresholds a submission is judged against: the stored ones, or all zero. */
  function ThresholdsInEffect(thresholds: map<string, Thresholds>, locationCode: string): Thresholds {
    if locationCode in thresholds then thresholds[locationCode] else ZeroThresholds
  }

  /**
   * A reading is a flood when any one of the three thresholds is reached, so
   * it is not a flood exactly when all three measures stay strictly below
   * their thresholds; against zero thresholds every reading with a
   * non-negative river level or rainfall is a flood.
   */
  function CheckFloodCondition(riverLevel: int, rainfallAmount: int, t: Thresholds): (r: bool)
    ensures !r <==> riverLevel < t.riverLevelThreshold && rainfallAmount < t.rainfallThreshold
                    && riverLevel + rainfallAmount < t.combinedThreshold
    ensures t == ZeroThresholds && (riverLevel >= 0 || rainfallAmount >= 0) ==> r
  {
    || riverLevel >= t.riverLevelThreshold
    || rainfallAmount >= t.rainfallThreshold
    || riverLevel + rainfallAmount >= t.combinedThreshold
  }

  /** The alert of a location, or the inactive placeholder when there is none. */
  function CurrentAlert(alerts: map<string, Alert>, locationCode: string): Alert {
    if locationCode in alerts then alerts[locationCode] else NoAlert
  }

  /**
   * The alert after a flood reading: an active alert goes up one level and
   * keeps its start time; otherwise a new alert epoch starts at level 1.
   */
  function EscalatedAlert(current: Alert, readingId: nat, height: nat): Alert {
    Alert(
      if current.isActive then current.alertLevel + 1 else 1,
      if current.isActive then current.startTime else height,
      readingId,
      true)
  }

  /** The alerts map after a flood reading `readingId` at `locationCode`. */
  function UpdateFloodAlert(alerts: map<string, Alert>, locationCode: string, readingId: nat, height: nat): map<string, Alert> {
    alerts[locationCode := EscalatedAlert(CurrentAlert(alerts, locationCode), readingId, height)]
  }

  function SubmitWaterLevelReading(s: State, sender: string, sub: Submission): Transition<nat> {
    var readingId := s.lastReadingId + 1;
    if !ProviderAuthorized(s.providers, sender) then
      Transition(s, Error(ERR_UNAUTHORIZED))
    else
      var isFlood := CheckFloodCondition(sub.riverLevel, sub.rainfallAmount, ThresholdsInEffect(s.thresholds, sub.locationCode));
      var reading := Reading(sub.locationCode, sub.riverLevel, sub.rainfallAmount, sub.height, sub.sensorId, isFlood);
      var alerts := if isFlood then UpdateFloodAlert(s.alerts, sub.locationCode, readingId, sub.height) else s.alerts;
      Transition(
        s.(lastReadingId := readingId, readings := s.readings[readingId := reading], alerts := alerts),
        Value(readingId))
  }

  function SetFloodThresholds(s: State, height: nat, locationCode: string,
                              riverLevelThreshold: int, rainfallThreshold: int, combinedThreshold: int): Transition<bool>
  {
    var t := Thresholds(riverLevelThreshold, rainfallThreshold, combinedThreshold, height);
    Transition(s.(thresholds := s.thresholds[locationCode := t]), Value(true))
  }

  function AuthorizeProvider(s: State, provider: string): Transition<bool> {
    Transition(s.(providers := s.providers[provider := true]), Value(true))
  }

  function RevokeProvider(s: State, provider: string): Transition<bool> {
    Transition(s.(providers := s.providers[provider := false]), Value(true))
  }

  function ClearFloodAlert(s: State, locationCode: string): Transition<bool> {
    if locationCode !in s.alerts then
      Transition(s, Error(ERR_NO_ALERT))
    else
      var cleared := s.alerts[locationCode].(isActive := false);
      Transition(s.(alerts := s.alerts[locationCode := cleared]), Value(true))
  }

  /**
   * The invariant every reachable state keeps: the readings are exactly the
   * ids 1 .. lastReadingId; every alert names a flood reading of its own
   * location, and every flood reading has raised its location's alert, which
   * names that reading or a later one. Together: each alert names the most
   * recent flood reading of its location.
   */
  ghost predicate Valid(s: State) {
    && (forall id :: id in s.readings <==> 1 <= id <= s.lastReadingId)
    && (forall loc :: loc in s.alerts ==> AlertTracksReadings(s, loc))
    && (forall id :: id in s.readings && s.readings[id].isFloodCondition ==> FloodIsAlerted(s, id))
  }

  /** The alert of `loc` is at level 1 or more and names a flood reading of `loc`. */
  ghost predicate AlertTracksReadings(s: State, loc: string)
    requires loc in s.alerts
  {
    var a := s.alerts[loc];
    && 1 <= a.alertLevel
    && a.lastReadingId in s.readings
    && s.readings[a.lastReadingId].locationCode == loc
    && s.readings[a.lastReadingId].isFloodCondition
  }

  /** Flood reading `id` has raised the alert of its location, and that alert names this reading or a later one. */
  ghost predicate FloodIsAlerted(s: State, id: nat)
    requires id in s.readings
  {
    var loc := s.readings[id].locationCode;
    loc in s.alerts && id <= s.alerts[loc].lastReadingId
  }
}
