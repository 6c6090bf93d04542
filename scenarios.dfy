/**
 * The contract's test scenarios, run against fresh `Ledger` objects. Each
 * method returns what the scenario observes and its postcondition states
 * what the scenario expects; every scenario starts at block height 100.
 */
module WaterLevelScenarios {
  import opened WaterLevel
  import opened WaterLevelContract

  /** The default data provider the scenarios send from. */
  const Provider: string := "ST1PQHQKV0RJXZFY1DGX8MNSNYVE3VGZJSRTPGZGM"
  const Height: nat := 100

  method AuthorizeScenario() returns (result: Response<bool>, authorized: bool)
    ensures result == Value(true)
    ensures authorized
  {
    var ledger := new Ledger();
    result := ledger.AuthorizeProvider(Provider);
    authorized := ledger.IsProviderAuthorized(Provider);
  }

  method UnauthorizedSubmitScenario() returns (result: Response<nat>, lastId: nat, stored: Option<Reading>)
    ensures result == Error(1)
    ensures lastId == 0 && stored == None
  {
    var ledger := new Ledger();
    result := ledger.SubmitWaterLevelReading(Provider, Height, "ZONE001", 50, 30, "SENSOR001");
    lastId := ledger.GetLastReadingId();
    stored := ledger.GetWaterLevelReading(1);
  }

  method SubmitScenario() returns (result: Response<nat>, reading: Option<Reading>)
    ensures result == Value(1)
    ensures reading == Some(Reading("ZONE001", 50, 30, 100, "SENSOR001", false))
  {
    var ledger := new Ledger();
    var _ := ledger.AuthorizeProvider(Provider);
    var _ := ledger.SetFloodThresholds(Height, "ZONE001", 100, 50, 120);
    result := ledger.SubmitWaterLevelReading(Provider, Height, "ZONE001", 50, 30, "SENSOR001");
    reading := ledger.GetWaterLevelReading(1);
  }

  method FloodAlertScenario() returns (first: Option<Alert>, second: Option<Alert>)
    ensures first.Some? && first.value.isActive && first.value.alertLevel == 1 && first.value.startTime == 100
    ensures second.Some? && second.value.alertLevel == 2 && second.value.startTime == 100
  {
    var ledger := new Ledger();
    var _ := ledger.AuthorizeProvider(Provider);
    var _ := ledger.SetFloodThresholds(Height, "ZONE001", 100, 50, 120);
    var _ := ledger.SubmitWaterLevelReading(Provider, Height, "ZONE001", 120, 30, "SENSOR001");
    first := ledger.GetFloodAlert("ZONE001");
    var _ := ledger.SubmitWaterLevelReading(Provider, Height, "ZONE001", 130, 40, "SENSOR001");
    second := ledger.GetFloodAlert("ZONE001");
  }

  method ClearAlertScenario() returns (before: Option<Alert>, result: Response<bool>, after: Option<Alert>)
    ensures before.Some? && before.value.isActive
    ensures result == Value(true)
    ensures after.Some? && !after.value.isActive
  {
    var ledger := new Ledger();
    var _ := ledger.AuthorizeProvider(Provider);
    var _ := ledger.SetFloodThresholds(Height, "ZONE001", 100, 50, 120);
    var _ := ledger.SubmitWaterLevelReading(Provider, Height, "ZONE001", 120, 30, "SENSOR001");
    before := ledger.GetFloodAlert("ZONE001");
    result := ledger.ClearFloodAlert("ZONE001");
    after := ledger.GetFloodAlert("ZONE001");
  }

  /** River level 70 below its threshold; rainfall 60 reaches its own, so the reading is a flood. */
  method CombinedThresholdScenario() returns (reading: Option<Reading>, alert: Option<Alert>)
    ensures reading.Some? && reading.value.isFloodCondition
    ensures alert.Some? && alert.value.isActive
  {
    var ledger := new Ledger();
    var _ := ledger.AuthorizeProvider(Provider);
    var _ := ledger.SetFloodThresholds(Height, "ZONE001", 100, 50, 120);
    var _ := ledger.SubmitWaterLevelReading(Provider, Height, "ZONE001", 70, 60, "SENSOR001");
    reading := ledger.GetWaterLevelReading(1);
    alert := ledger.GetFloodAlert("ZONE001");
  }

  /** River level 90 and rainfall 40 are each below their thresholds; only their sum 130 reaches the combined one. */
  method CombinedOnlyScenario() returns (reading: Option<Reading>, alert: Option<Alert>)
    ensures reading == Some(Reading("ZONE001", 90, 40, 100, "SENSOR001", true))
    ensures alert == Some(Alert(1, 100, 1, true))
  {
    var ledger := new Ledger();
    var _ := ledger.AuthorizeProvider(Provider);
    var _ := ledger.SetFloodThresholds(Height, "ZONE001", 100, 50, 120);
    var _ := ledger.SubmitWaterLevelReading(Provider, Height, "ZONE001", 90, 40, "SENSOR001");
    reading := ledger.GetWaterLevelReading(1);
    alert := ledger.GetFloodAlert("ZONE001");
  }

  /** A flood reading at 70/60 raises the alert; a quiet reading at 50/30 after it leaves the alert at level 1. */
  method QuietReadingKeepsAlertScenario() returns (flood: Option<Alert>, quiet: Option<Alert>, second: Option<Reading>)
    ensures flood == Some(Alert(1, 100, 1, true))
    ensures quiet == flood
    ensures second.Some? && !second.value.isFloodCondition
  {
    var ledger := new Ledger();
    var _ := ledger.AuthorizeProvider(Provider);
    var _ := ledger.SetFloodThresholds(Height, "ZONE001", 100, 50, 120);
    var _ := ledger.SubmitWaterLevelReading(Provider, Height, "ZONE001", 70, 60, "SENSOR001");
    flood := ledger.GetFloodAlert("ZONE001");
    var _ := ledger.SubmitWaterLevelReading(Provider, Height + 1, "ZONE001", 50, 30, "SENSOR001");
    quiet := ledger.GetFloodAlert("ZONE001");
    second := ledger.GetWaterLevelReading(2);
  }

  /** A revoked provider is refused again, and its earlier reading stays. */
  method RevokeScenario() returns (result: Response<nat>, earlier: Option<Reading>)
    ensures result == Error(1)
    ensures earlier == Some(Reading("ZONE001", 50, 30, 100, "SENSOR001", false))
  {
    var ledger := new Ledger();
    var _ := ledger.AuthorizeProvider(Provider);
    var _ := ledger.SetFloodThresholds(Height, "ZONE001", 100, 50, 120);
    var _ := ledger.SubmitWaterLevelReading(Provider, Height, "ZONE001", 50, 30, "SENSOR001");
    var _ := ledger.RevokeProvider(Provider);
    result := ledger.SubmitWaterLevelReading(Provider, Height + 1, "ZONE001", 120, 30, "SENSOR001");
    earlier := ledger.GetWaterLevelReading(1);
  }

  /** Clearing a location that never had an alert fails and changes nothing. */
  method ClearMissingAlertScenario() returns (result: Response<bool>, alert: Option<Alert>)
    ensures result == Error(1)
    ensures alert == None
  {
    var ledger := new Ledger();
    result := ledger.ClearFloodAlert("ZONE002");
    alert := ledger.GetFloodAlert("ZONE002");
  }
}
