/**
 * Properties of the water-level monitoring state machine: what each
 * operation does to the state, the invariant every operation keeps, and
 * what runs of several calls do to reading ids and flood alerts.
 */
module WaterLevelLemmas {
  import opened WaterLevel

  // ---------------------------------------------------------------------
  // Flood condition

  /** A location without thresholds judges against zero: every non-negative reading is a flood. */
  lemma UnsetLocationAlwaysFloods(s: State, sender: string, sub: Submission)
    requires ProviderAuthorized(s.providers, sender)
    requires sub.locationCode !in s.thresholds
    requires sub.riverLevel >= 0 || sub.rainfallAmount >= 0
    ensures SubmitWaterLevelReading(s, sender, sub).state.readings[s.lastReadingId + 1].isFloodCondition
  {
  }

  /** Higher readings, or lower thresholds, never turn a flood into a non-flood. */
  lemma FloodConditionMonotone(river: int, rain: int, t: Thresholds, river': int, rain': int, t': Thresholds)
    requires CheckFloodCondition(river, rain, t)
    requires river <= river' && rain <= rain'
    requires t'.riverLevelThreshold <= t.riverLevelThreshold
    requires t'.rainfallThreshold <= t.rainfallThreshold
    requires t'.combinedThreshold <= t.combinedThreshold
    ensures CheckFloodCondition(river', rain', t')
  {
  }

  // ---------------------------------------------------------------------
  // Submitting a reading

  /** A sender that is unknown or revoked gets error 1 and the state is left as it was. */
  lemma UnauthorizedSubmissionChangesNothing(s: State, sender: string, sub: Submission)
    requires !ProviderAuthorized(s.providers, sender)
    ensures SubmitWaterLevelReading(s, sender, sub) == Transition(s, Error(ERR_UNAUTHORIZED))
  {
  }

  /**
   * An authorised submission returns the next id, advances the counter to it
   * and stores, under exactly that id, the reading as given, stamped with the
   * height and judged against the thresholds in effect. Thresholds and
   * providers are unchanged.
   */
  lemma AuthorizedSubmissionStoresReading(s: State, sender: string, sub: Submission)
    requires ProviderAuthorized(s.providers, sender)
    ensures var t := SubmitWaterLevelReading(s, sender, sub);
      var id := s.lastReadingId + 1;
      && t.response == Value(id)
      && t.state.lastReadingId == id
      && t.state.readings == s.readings[id := Reading(
           sub.locationCode, sub.riverLevel, sub.rainfallAmount, sub.height, sub.sensorId,
           CheckFloodCondition(sub.riverLevel, sub.rainfallAmount, ThresholdsInEffect(s.thresholds, sub.locationCode)))]
      && t.state.thresholds == s.thresholds
      && t.state.providers == s.providers
  {
  }

  /** A reading that is not a flood leaves every alert as it was. */
  lemma NonFloodKeepsAlerts(s: State, sender: string, sub: Submission)
    requires !CheckFloodCondition(sub.riverLevel, sub.rainfallAmount, ThresholdsInEffect(s.thresholds, sub.locationCode))
    ensures SubmitWaterLevelReading(s, sender, sub).state.alerts == s.alerts
  {
  }

  /**
   * A flood reading touches only the alert of its own location. That alert
   * names the new reading and is active; if it was already active it goes up
   * exactly one level and keeps its start time, otherwise it starts a new
   * epoch at level 1 with the current height as start time.
   */
  lemma FloodUpdatesOwnAlert(s: State, sender: string, sub: Submission)
    requires ProviderAuthorized(s.providers, sender)
    requires CheckFloodCondition(sub.riverLevel, sub.rainfallAmount, ThresholdsInEffect(s.thresholds, sub.locationCode))
    ensures var alerts := SubmitWaterLevelReading(s, sender, sub).state.alerts;
      var loc := sub.locationCode;
      && alerts.Keys == s.alerts.Keys + {loc}
      && (forall other :: other in s.alerts && other != loc ==> alerts[other] == s.alerts[other])
      && alerts[loc].lastReadingId == s.lastReadingId + 1
      && alerts[loc].isActive
      && (if loc in s.alerts && s.alerts[loc].isActive then
            alerts[loc].alertLevel == s.alerts[loc].alertLevel + 1 && alerts[loc].startTime == s.alerts[loc].startTime
          else
            alerts[loc].alertLevel == 1 && alerts[loc].startTime == sub.height)
  {
  }

  // ---------------------------------------------------------------------
  // Thresholds, providers, clearing

  /** Setting thresholds replaces the location's record, stamped with the height, and nothing else. */
  lemma SetThresholdsOverwrites(s: State, height: nat, loc: string, river: int, rain: int, combined: int)
    ensures var t := SetFloodThresholds(s, height, loc, river, rain, combined);
      && t.response == Value(true)
      && Lookup(t.state.thresholds, loc) == Some(Thresholds(river, rain, combined, height))
      && ThresholdsInEffect(t.state.thresholds, loc) == Thresholds(river, rain, combined, height)
      && (forall other :: other != loc ==> Lookup(t.state.thresholds, other) == Lookup(s.thresholds, other))
      && t.state == s.(thresholds := t.state.thresholds)
  {
  }

  /** Authorising a provider sets its flag, touches no other provider, and is idempotent. */
  lemma AuthorizeSetsFlag(s: State, p: string)
    ensures var t := AuthorizeProvider(s, p);
      && t.response == Value(true)
      && ProviderAuthorized(t.state.providers, p)
      && (forall q :: q != p ==> ProviderAuthorized(t.state.providers, q) == ProviderAuthorized(s.providers, q))
      && AuthorizeProvider(t.state, p) == t
      && t.state == s.(providers := t.state.providers)
  {
  }

  /** Revoking a provider clears its flag, touches no other provider and no reading, and is idempotent. */
  lemma RevokeClearsFlag(s: State, p: string)
    ensures var t := RevokeProvider(s, p);
      && t.response == Value(true)
      && !ProviderAuthorized(t.state.providers, p)
      && (forall q :: q != p ==> ProviderAuthorized(t.state.providers, q) == ProviderAuthorized(s.providers, q))
      && RevokeProvider(t.state, p) == t
      && t.state == s.(providers := t.state.providers)
  {
  }

  /** Clearing the alert of a location that has none fails with error 1 and changes nothing. */
  lemma ClearMissingAlertFails(s: State, loc: string)
    requires loc !in s.alerts
    ensures ClearFloodAlert(s, loc) == Transition(s, Error(ERR_NO_ALERT))
  {
  }

  /**
   * Clearing an existing alert succeeds and sets only `isActive` to false:
   * level, start time and last reading id are kept, other locations and the
   * rest of the state are untouched, and clearing again changes nothing more.
   */
  lemma ClearKeepsAlertFields(s: State, loc: string)
    requires loc in s.alerts
    ensures var t := ClearFloodAlert(s, loc);
      var a := s.alerts[loc];
      && t.response == Value(true)
      && t.state.alerts.Keys == s.alerts.Keys
      && t.state.alerts[loc] == Alert(a.alertLevel, a.startTime, a.lastReadingId, false)
      && (forall other :: other in s.alerts && other != loc ==> t.state.alerts[other] == s.alerts[other])
      && t.state == s.(alerts := t.state.alerts)
      && ClearFloodAlert(t.state, loc).state == t.state
  {
  }

  /** After clearing, the next flood reading at the location starts a new epoch at level 1. */
  lemma FloodAfterClearStartsNewEpoch(s: State, sender: string, sub: Submission)
    requires sub.locationCode in s.alerts
    requires ProviderAuthorized(s.providers, sender)
    requires CheckFloodCondition(sub.riverLevel, sub.rainfallAmount, ThresholdsInEffect(s.thresholds, sub.locationCode))
    ensures var cleared := ClearFloodAlert(s, sub.locationCode).state;
      var a := SubmitWaterLevelReading(cleared, sender, sub).state.alerts[sub.locationCode];
      a == Alert(1, sub.height, s.lastReadingId + 1, true)
  {
  }

  // ---------------------------------------------------------------------
  // The invariant

  lemma InitialValid()
    ensures Valid(Initial)
  {
  }

  lemma SubmitPreservesValid(s: State, sender: string, sub: Submission)
    requires Valid(s)
    ensures Valid(SubmitWaterLevelReading(s, sender, sub).state)
  {
  }

  lemma ClearPreservesValid(s: State, loc: string)
    requires Valid(s)
    ensures Valid(ClearFloodAlert(s, loc).state)
  {
  }

  /** One call to the contract, with the sender and height it happens under where it needs them. */
  datatype Call =
    | Authorize(provider: string)
    | Revoke(provider: string)
    | SetThresholds(height: nat, locationCode: string, river: int, rain: int, combined: int)
    | Submit(sender: string, submission: Submission)
    | Clear(locationCode: string)

  function Apply(s: State, c: Call): State {
    match c
    case Authorize(p) => AuthorizeProvider(s, p).state
    case Revoke(p) => RevokeProvider(s, p).state
    case SetThresholds(h, loc, river, rain, combined) => SetFloodThresholds(s, h, loc, river, rain, combined).state
    case Submit(sender, sub) => SubmitWaterLevelReading(s, sender, sub).state
    case Clear(loc) => ClearFloodAlert(s, loc).state
  }

  /** The state after the calls, in order. */
  function Run(s: State, calls: seq<Call>): State
    decreases |calls|
  {
    if calls == [] then s else Run(Apply(s, calls[0]), calls[1..])
  }

  lemma ApplyPreservesValid(s: State, c: Call)
    requires Valid(s)
    ensures Valid(Apply(s, c))
  {
  }

  /** Every state reachable by calls from a valid state is valid. */
  lemma {:induction false} RunPreservesValid(s: State, calls: seq<Call>)
    requires Valid(s)
    ensures Valid(Run(s, calls))
    decreases |calls|
  {
    if calls != [] {
      ApplyPreservesValid(s, calls[0]);
      RunPreservesValid(Apply(s, calls[0]), calls[1..]);
    }
  }

  /** Every state the contract can reach from deployment is valid. */
  lemma ReachableValid(calls: seq<Call>)
    ensures Valid(Run(Initial, calls))
  {
    InitialValid();
    RunPreservesValid(Initial, calls);
  }

  /**
   * Readings are never removed or rewritten, and the id counter never goes
   * back; in particular revoking a provider leaves its earlier readings.
   */
  lemma {:induction false} ReadingsArePermanent(s: State, calls: seq<Call>)
    requires Valid(s)
    ensures s.lastReadingId <= Run(s, calls).lastReadingId
    ensures forall id :: id in s.readings ==> id in Run(s, calls).readings && Run(s, calls).readings[id] == s.readings[id]
    decreases |calls|
  {
    if calls != [] {
      ApplyPreservesValid(s, calls[0]);
      ReadingsArePermanent(Apply(s, calls[0]), calls[1..]);
    }
  }

  /** The flag the last authorise or revoke call for `p` in `calls` gives, if there is one. */
  function LastProviderFlag(calls: seq<Call>, p: string): Option<bool>
    decreases |calls|
  {
    if calls == [] then None
    else
      var later := LastProviderFlag(calls[1..], p);
      if later.Some? then later
      else
        match calls[0]
        case Authorize(q) => if q == p then Some(true) else None
        case Revoke(q) => if q == p then Some(false) else None
        case _ => None
  }

  /**
   * After any calls, a provider's authorisation is the flag of the last
   * authorise or revoke call for it; with no such call it is what it was
   * before. Submissions, thresholds and clearing never change it.
   */
  lemma {:induction false} LastProviderCallWins(s: State, calls: seq<Call>, p: string)
    ensures ProviderAuthorized(Run(s, calls).providers, p)
         == match LastProviderFlag(calls, p)
            case Some(flag) => flag
            case None => ProviderAuthorized(s.providers, p)
    decreases |calls|
  {
    if calls != [] {
      LastProviderCallWins(Apply(s, calls[0]), calls[1..], p);
    }
  }

  /** From deployment, a provider that no authorise or revoke call named is not authorised. */
  lemma NeverSetProviderUnauthorized(calls: seq<Call>, p: string)
    requires LastProviderFlag(calls, p) == None
    ensures !ProviderAuthorized(Run(Initial, calls).providers, p)
  {
    LastProviderCallWins(Initial, calls, p);
  }

  /**
   * Within an alert epoch, whatever else happens: as long as no call clears
   * the alert of `loc` — other senders' submissions, threshold changes,
   * authorisations and revocations, clears elsewhere — the alert stays
   * active, its start time stays frozen and its level never drops.
   */
  lemma {:induction false} EpochFrozenOverRun(s: State, calls: seq<Call>, loc: string)
    requires loc in s.alerts && s.alerts[loc].isActive
    requires forall i :: 0 <= i < |calls| ==> calls[i] != Clear(loc)
    ensures var alerts := Run(s, calls).alerts;
      && loc in alerts
      && alerts[loc].isActive
      && alerts[loc].startTime == s.alerts[loc].startTime
      && alerts[loc].alertLevel >= s.alerts[loc].alertLevel
    decreases |calls|
  {
    if calls != [] {
      var rest := calls[1..];
      forall i | 0 <= i < |rest|
        ensures rest[i] != Clear(loc)
      {
        assert rest[i] == calls[i + 1];
      }
      EpochFrozenOverRun(Apply(s, calls[0]), rest, loc);
    }
  }

  /** Call `c`, made in state `s`, is an authorised sender's flood reading at `loc`. */
  predicate FloodsAt(s: State, c: Call, loc: string) {
    && c.Submit?
    && c.submission.locationCode == loc
    && ProviderAuthorized(s.providers, c.sender)
    && CheckFloodCondition(c.submission.riverLevel, c.submission.rainfallAmount, ThresholdsInEffect(s.thresholds, loc))
  }

  /**
   * The converse of `EpochFrozenOverRun`: a location with no active alert
   * gets one only through a flood reading there. Threshold changes,
   * authorisations and revocations, other locations' readings and clears
   * never make it active.
   */
  lemma {:induction false} InactiveUntilFlood(s: State, calls: seq<Call>, loc: string)
    requires loc !in s.alerts || !s.alerts[loc].isActive
    requires forall i :: 0 <= i < |calls| ==> !FloodsAt(Run(s, calls[..i]), calls[i], loc)
    ensures var alerts := Run(s, calls).alerts;
      loc !in alerts || !alerts[loc].isActive
    decreases |calls|
  {
    if calls != [] {
      assert !FloodsAt(Run(s, calls[..0]), calls[0], loc);
      assert calls[..0] == [];
      var rest := calls[1..];
      forall i | 0 <= i < |rest|
        ensures !FloodsAt(Run(Apply(s, calls[0]), rest[..i]), rest[i], loc)
      {
        assert calls[..i + 1] == [calls[0]] + rest[..i];
        assert rest[i] == calls[i + 1];
        assert !FloodsAt(Run(s, calls[..i + 1]), calls[i + 1], loc);
      }
      InactiveUntilFlood(Apply(s, calls[0]), rest, loc);
    }
  }

  // ---------------------------------------------------------------------
  // Runs of submissions by one sender

  /** The state after one sender submits `subs` in order, and every response. */
  datatype Trace = Trace(state: State, responses: seq<Response<nat>>)

  function SubmitAll(s: State, sender: string, subs: seq<Submission>): Trace
    decreases |subs|
  {
    if subs == [] then Trace(s, [])
    else
      var t := SubmitWaterLevelReading(s, sender, subs[0]);
      var rest := SubmitAll(t.state, sender, subs[1..]);
      Trace(rest.state, [t.response] + rest.responses)
  }

  /**
   * An authorised sender's submissions get the ids following the counter,
   * one apart, with no gap or repeat; thresholds and providers stay the same.
   */
  lemma {:induction false} SequentialIds(s: State, sender: string, subs: seq<Submission>)
    requires ProviderAuthorized(s.providers, sender)
    ensures var t := SubmitAll(s, sender, subs);
      && |t.responses| == |subs|
      && (forall i :: 0 <= i < |subs| ==> t.responses[i] == Value(s.lastReadingId + i + 1))
      && t.state.lastReadingId == s.lastReadingId + |subs|
      && t.state.thresholds == s.thresholds
      && t.state.providers == s.providers
    decreases |subs|
  {
    if subs != [] {
      var first := SubmitWaterLevelReading(s, sender, subs[0]);
      SequentialIds(first.state, sender, subs[1..]);
    }
  }

  /** A sender authorised on a fresh contract gets the ids 1, 2, 3, ... */
  lemma FreshContractIds(sender: string, subs: seq<Submission>)
    ensures var t := SubmitAll(AuthorizeProvider(Initial, sender).state, sender, subs);
      && |t.responses| == |subs|
      && forall i :: 0 <= i < |subs| ==> t.responses[i] == Value(i + 1)
  {
    SequentialIds(AuthorizeProvider(Initial, sender).state, sender, subs);
  }

  /** A sender that is not authorised gets error 1 every time and changes nothing. */
  lemma {:induction false} UnauthorizedRunChangesNothing(s: State, sender: string, subs: seq<Submission>)
    requires !ProviderAuthorized(s.providers, sender)
    ensures var t := SubmitAll(s, sender, subs);
      t.state == s && t.responses == seq(|subs|, i => Error(ERR_UNAUTHORIZED))
    decreases |subs|
  {
    if subs != [] {
      UnauthorizedRunChangesNothing(s, sender, subs[1..]);
    }
  }

  /** The number of submissions at `loc` that are floods under the thresholds `th`. */
  function FloodCount(th: map<string, Thresholds>, loc: string, subs: seq<Submission>): nat
    decreases |subs|
  {
    if subs == [] then 0
    else
      var sub := subs[0];
      var hit := sub.locationCode == loc && CheckFloodCondition(sub.riverLevel, sub.rainfallAmount, ThresholdsInEffect(th, loc));
      (if hit then 1 else 0) + FloodCount(th, loc, subs[1..])
  }

  /** Submissions with no flood at `loc` leave the alert of `loc` exactly as it was. */
  lemma {:induction false} QuietRunKeepsAlert(s: State, sender: string, subs: seq<Submission>, loc: string)
    requires ProviderAuthorized(s.providers, sender)
    requires FloodCount(s.thresholds, loc, subs) == 0
    ensures Lookup(SubmitAll(s, sender, subs).state.alerts, loc) == Lookup(s.alerts, loc)
    decreases |subs|
  {
    if subs != [] {
      var first := SubmitWaterLevelReading(s, sender, subs[0]);
      assert Lookup(first.state.alerts, loc) == Lookup(s.alerts, loc);
      QuietRunKeepsAlert(first.state, sender, subs[1..], loc);
    }
  }

  /**
   * Within an alert epoch: while the alert of `loc` is active, each flood
   * reading at `loc` raises it by exactly one level, and its start time
   * stays frozen.
   */
  lemma {:induction false} ActiveAlertEscalates(s: State, sender: string, subs: seq<Submission>, loc: string)
    requires ProviderAuthorized(s.providers, sender)
    requires loc in s.alerts && s.alerts[loc].isActive
    ensures var alerts := SubmitAll(s, sender, subs).state.alerts;
      && loc in alerts
      && alerts[loc].isActive
      && alerts[loc].alertLevel == s.alerts[loc].alertLevel + FloodCount(s.thresholds, loc, subs)
      && alerts[loc].startTime == s.alerts[loc].startTime
    decreases |subs|
  {
    if subs != [] {
      var first := SubmitWaterLevelReading(s, sender, subs[0]);
      ActiveAlertEscalates(first.state, sender, subs[1..], loc);
    }
  }

  /**
   * A new epoch: when the alert of `loc` is missing or cleared and the first
   * submission is a flood at `loc`, the alert ends the run active, at a level
   * equal to the number of flood readings at `loc`, started at the height of
   * the first one.
   */
  lemma NewEpochCountsFloods(s: State, sender: string, subs: seq<Submission>, loc: string)
    requires ProviderAuthorized(s.providers, sender)
    requires loc !in s.alerts || !s.alerts[loc].isActive
    requires |subs| > 0 && subs[0].locationCode == loc
    requires CheckFloodCondition(subs[0].riverLevel, subs[0].rainfallAmount, ThresholdsInEffect(s.thresholds, loc))
    ensures var alerts := SubmitAll(s, sender, subs).state.alerts;
      && loc in alerts
      && alerts[loc].isActive
      && alerts[loc].alertLevel == FloodCount(s.thresholds, loc, subs)
      && alerts[loc].startTime == subs[0].height
  {
    var first := SubmitWaterLevelReading(s, sender, subs[0]);
    assert first.state.alerts[loc] == Alert(1, subs[0].height, s.lastReadingId + 1, true);
    ActiveAlertEscalates(first.state, sender, subs[1..], loc);
  }
}
