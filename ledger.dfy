/**
 * The contract object itself: a ledger whose fields are the reading-id
 * counter and the four maps, updated in place by its methods. Each public
 * state-changing method is proved to move the ledger exactly as the
 * corresponding function of `WaterLevel` moves its abstract `State`, and to
 * keep `Valid`; the helper `UpdateFloodAlert` is proved only to update the
 * alerts map as `WaterLevel.UpdateFloodAlert` does.
 */
module WaterLevelContract {
  import opened WaterLevel
  import WaterLevelLemmas

  class Ledger {
    var lastReadingId: nat
    var waterLevelReadings: map<nat, Reading>
    var floodThresholds: map<string, Thresholds>
    var authorizedProviders: map<string, bool>
    var floodAlerts: map<string, Alert>

    /** The abstract state the fields stand for. */
    function Model(): State
      reads this
    {
      State(lastReadingId, waterLevelReadings, floodThresholds, authorizedProviders, floodAlerts)
    }

    ghost predicate Valid()
      reads this
    {
      WaterLevel.Valid(Model())
    }

    /** A freshly deployed contract (the state every test starts from). */
    constructor ()
      ensures Model() == Initial
      ensures Valid()
    {
      lastReadingId := 0;
      waterLevelReadings := map[];
      floodThresholds := map[];
      authorizedProviders := map[];
      floodAlerts := map[];
      WaterLevelLemmas.InitialValid();
    }

    /**
     * Submit a reading as `sender` at block height `height`: error 1 for a
     * sender that is not an authorised provider, otherwise the new reading's id.
     */
    method SubmitWaterLevelReading(sender: string, height: nat, locationCode: string,
                                   riverLevel: int, rainfallAmount: int, sensorId: string)
      returns (r: Response<nat>)
      requires Valid()
      modifies this
      ensures Valid()
      ensures var t := WaterLevel.SubmitWaterLevelReading(
                old(Model()), sender, Submission(height, locationCode, riverLevel, rainfallAmount, sensorId));
        Model() == t.state && r == t.response
    {
      ghost var sub := Submission(height, locationCode, riverLevel, rainfallAmount, sensorId);
      WaterLevelLemmas.SubmitPreservesValid(Model(), sender, sub);
      var readingId := lastReadingId + 1;
      var isAuthorized := ProviderAuthorized(authorizedProviders, sender);
      if !isAuthorized {
        return Error(ERR_UNAUTHORIZED);
      }
      var thresholds := ThresholdsInEffect(floodThresholds, locationCode);
      var isFlood := CheckFloodCondition(riverLevel, rainfallAmount, thresholds);
      lastReadingId := readingId;
      waterLevelReadings := waterLevelReadings[readingId := Reading(locationCode, riverLevel, rainfallAmount, height, sensorId, isFlood)];
      if isFlood {
        UpdateFloodAlert(locationCode, readingId, height);
      }
      return Value(readingId);
    }

    /**
     * Raise or start the alert of `locationCode` for flood reading `readingId`.
     * Only a submission calls it, after storing that flood reading; called on
     * its own it may name a reading that does not exist, so it makes no
     * promise about `Valid`.
     */
    method UpdateFloodAlert(locationCode: string, readingId: nat, height: nat)
      modifies this`floodAlerts
      ensures floodAlerts == WaterLevel.UpdateFloodAlert(old(floodAlerts), locationCode, readingId, height)
    {
      var currentAlert := CurrentAlert(floodAlerts, locationCode);
      var newAlertLevel := if currentAlert.isActive then currentAlert.alertLevel + 1 else 1;
      floodAlerts := floodAlerts[locationCode := Alert(
        newAlertLevel,
        if currentAlert.isActive then currentAlert.startTime else height,
        readingId,
        true)];
    }

    method SetFloodThresholds(height: nat, locationCode: string,
                              riverLevelThreshold: int, rainfallThreshold: int, combinedThreshold: int)
      returns (r: Response<bool>)
      requires Valid()
      modifies this
      ensures Valid()
      ensures var t := WaterLevel.SetFloodThresholds(
                old(Model()), height, locationCode, riverLevelThreshold, rainfallThreshold, combinedThreshold);
        Model() == t.state && r == t.response
    {
      floodThresholds := floodThresholds[locationCode := Thresholds(riverLevelThreshold, rainfallThreshold, combinedThreshold, height)];
      return Value(true);
    }

    method AuthorizeProvider(provider: string) returns (r: Response<bool>)
      requires Valid()
      modifies this
      ensures Valid()
      ensures var t := WaterLevel.AuthorizeProvider(old(Model()), provider);
        Model() == t.state && r == t.response
    {
      authorizedProviders := authorizedProviders[provider := true];
      return Value(true);
    }

    method RevokeProvider(provider: string) returns (r: Response<bool>)
      requires Valid()
      modifies this
      ensures Valid()
      ensures var t := WaterLevel.RevokeProvider(old(Model()), provider);
        Model() == t.state && r == t.response
    {
      authorizedProviders := authorizedProviders[provider := false];
      return Value(true);
    }

    /** Mark the alert of `locationCode` inactive; error 1 when the location has no alert. */
    method ClearFloodAlert(locationCode: string) returns (r: Response<bool>)
      requires Valid()
      modifies this
      ensures Valid()
      ensures var t := WaterLevel.ClearFloodAlert(old(Model()), locationCode);
        Model() == t.state && r == t.response
    {
      WaterLevelLemmas.ClearPreservesValid(Model(), locationCode);
      if locationCode !in floodAlerts {
        return Error(ERR_NO_ALERT);
      }
      var currentAlert := floodAlerts[locationCode];
      currentAlert := currentAlert.(isActive := false);
      floodAlerts := floodAlerts[locationCode := currentAlert];
      return Value(true);
    }

    /** The stored reading with the given id, or `None`; in a valid ledger exactly the ids 1 .. lastReadingId are present. */
    function GetWaterLevelReading(readingId: nat): (r: Option<Reading>)
      reads this
      ensures r.Some? <==> readingId in waterLevelReadings
      ensures r.Some? ==> r.value == waterLevelReadings[readingId]
      ensures Valid() ==> (r.Some? <==> 1 <= readingId <= lastReadingId)
    {
      Lookup(waterLevelReadings, readingId)
    }

    /**
     * The stored thresholds, or `None` when unset. Unlike a submission, which
     * judges an unset location against zero thresholds, this getter does not
     * invent a record.
     */
    function GetFloodThresholds(locationCode: string): (r: Option<Thresholds>)
      reads this
      ensures r.None? <==> locationCode !in floodThresholds
      ensures r.Some? ==> r.value == ThresholdsInEffect(floodThresholds, locationCode)
      ensures r.None? ==> locationCode !in floodThresholds && ThresholdsInEffect(floodThresholds, locationCode) == ZeroThresholds
    {
      Lookup(floodThresholds, locationCode)
    }

    /**
     * The stored alert of a location, or `None`. In a valid ledger there is an alert
     * exactly when a flood reading was stored for the location, and the alert
     * names such a reading.
     */
    function GetFloodAlert(locationCode: string): (r: Option<Alert>)
      reads this
      ensures r.Some? <==> locationCode in floodAlerts
      ensures r.Some? ==> r.value == floodAlerts[locationCode]
      ensures Valid() ==> (r.Some? <==> exists id :: id in waterLevelReadings && IsFloodAt(waterLevelReadings[id], locationCode))
      ensures Valid() && r.Some? ==>
        && 1 <= r.value.alertLevel
        && r.value.lastReadingId in waterLevelReadings
        && IsFloodAt(waterLevelReadings[r.value.lastReadingId], locationCode)
    {
      Lookup(floodAlerts, locationCode)
    }

    /** Whether `provider` may submit readings; a provider never authorised is not. */
    function IsProviderAuthorized(provider: string): (r: bool)
      reads this
      ensures r ==> provider in authorizedProviders
      ensures provider in authorizedProviders ==> r == authorizedProviders[provider]
    {
      ProviderAuthorized(authorizedProviders, provider)
    }

    /** The id of the latest reading; in a valid ledger no stored id is larger. */
    function GetLastReadingId(): (r: nat)
      reads this
      ensures Valid() ==> (forall id :: id in waterLevelReadings ==> id <= r) && (r == 0 || r in waterLevelReadings)
    {
      lastReadingId
    }
  }

  /** Reading `reading` is a flood reading taken at `locationCode`. */
  predicate IsFloodAt(reading: Reading, locationCode: string) {
    reading.locationCode == locationCode && reading.isFloodCondition
  }
}
