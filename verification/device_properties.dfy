/** What the cushion and beacon handlers promise, stated over the states of module DeviceState. */
module DeviceProperties {
  import opened Wrappers
  import opened SwiftText
  import opened Uart
  import opened Proximity
  import opened DeviceState

  /** A second scan request while one is running, or while connected, changes nothing. */
  lemma ScanIsIdempotent(c: Config, s: State)
    ensures BackgroundScan(c, BackgroundScan(c, s)) == BackgroundScan(c, s)
    ensures ForegroundScan(BackgroundScan(c, s)) == BackgroundScan(c, s)
    ensures BackgroundScan(c, ForegroundScan(s)) == ForegroundScan(s)
    ensures ForegroundScan(ForegroundScan(s)) == ForegroundScan(s)
  {
  }

  /** A scan starts, and arms one stop timer, exactly when the cushion is disconnected and no scan runs. */
  lemma ScanIsGated(c: Config, s: State)
    ensures BackgroundScan(c, s).scanTimers == s.scanTimers + (if CanScan(s) then 1 else 0)
    ensures BackgroundScan(c, s).scanning == (s.scanning || !s.uartConnected)
    ensures !CanScan(s) ==> BackgroundScan(c, s) == s
  {
  }

  /** Only the cushion is connected to, and only while it is disconnected. */
  lemma DiscoverSelectsOnlyCushion(c: Config, s: State, p: Id)
    ensures DidDiscover(c, s, p) != s <==> p == c.uartId && !s.uartConnected
    ensures DidDiscover(c, s, p) != s ==> DidDiscover(c, s, p).selectedPeripheral == Some(c.uartId)
  {
  }

  /** Connecting stops the scan and marks the cushion connected; only debugging announces it. */
  lemma ConnectStopsScan(c: Config, s: State, p: Id)
    ensures var t := DidConnect(c, s, p);
      t.uartConnected && !t.scanning && t.scanTimers == s.scanTimers &&
      (Notify(ConnectedNote) in t.effects[|s.effects|..] <==> c.debugging)
  {
    var t := DidConnect(c, s, p);
    var tail := t.effects[|s.effects|..];
    if c.debugging {
      assert tail[1] == Notify(ConnectedNote);
    } else {
      assert tail == [StopScanning, OnMainThread([TitleConnected]), DiscoverServices(p, [c.serviceUuid])];
    }
  }

  /** An update from any characteristic other than the stored Rx one is ignored. */
  lemma OtherCharacteristicIgnored(c: Config, s: State, ch: Characteristic, payload: Option<string>,
                                   fahrenheit: bool, enabled: bool)
    requires s.rxCharacteristic != Some(ch)
    ensures DidUpdateValue(c, s, ch, payload, fahrenheit, enabled) == s
  {
  }

  /**
   * For a payload line from the Rx characteristic, the seat flag follows
   * the weight threshold and the heat notification is sent exactly when the
   * sensor is enabled, the baby is in the seat and the converted temperature
   * exceeds the controller's threshold.
   */
  lemma HeatNotificationRule(c: Config, s: State, ch: Characteristic, line: string, fahrenheit: bool, enabled: bool)
    requires s.rxCharacteristic == Some(ch)
    ensures var fields := SplitPayload(line, c.notConnected);
      var t := DidUpdateValue(c, s, ch, Some(line), fahrenheit, enabled);
      var temp := ParseInt(c.convertTemp(fields.temp));
      && t.babyInSeat == BabyInSeat(fields.weight)
      && t.uartConnected == s.uartConnected && t.rxCharacteristic == s.rxCharacteristic
      && (Notify(TemperatureNote) in t.effects[|s.effects|..] <==>
            enabled && BabyInSeat(fields.weight) && temp.Some? && temp.value > s.maxTemp)
  {
    var t := DidUpdateValue(c, s, ch, Some(line), fahrenheit, enabled);
    var r := ReadingOf(c, s, line, fahrenheit, enabled);
    assert t.effects[|s.effects|..] == ReadingEffects(r);
  }

  /** A radio that is not powered on changes nothing but the presentation: the connection state is kept. */
  lemma RadioStateKeepsConnection(s: State, poweredOn: bool)
    ensures DidUpdateState(s, poweredOn).(effects := s.effects) == s
    ensures poweredOn <==> DidUpdateState(s, poweredOn) == s
  {
  }

  /** A failure to connect that carries no error is ignored; one with an error marks the cushion disconnected. */
  lemma FailureToConnect(s: State, error: bool)
    ensures !error ==> DidFailToConnect(s, error) == s
    ensures error ==> DidFailToConnect(s, error).(effects := s.effects) == s.(uartConnected := false)
  {
  }

  /**
   * A disconnection always leaves the cushion disconnected and a scan
   * running; a new stop timer is armed unless a scan was already running.
   */
  lemma DisconnectRescans(c: Config, s: State)
    ensures var t := DidDisconnect(c, s);
      !t.uartConnected && t.scanning && t.scanTimers == s.scanTimers + (if s.scanning then 0 else 1)
      && t.effects[|t.effects| - 1] == Notify(if c.debugging then DisconnectedNote else LeftRegionNote)
  {
  }

  /**
   * Entering and leaving the region in quick succession leaves the beacon
   * disconnected and no scan running, but a stop timer armed on entry is
   * not cancelled.
   */
  lemma RegionFlap(c: Config, s: State)
    ensures var t := DidExitRegion(c, DidEnterRegion(c, s));
      && !t.beaconConnected && !t.scanning
      && t.uartConnected == s.uartConnected
      && t.scanTimers == s.scanTimers + (if CanScan(s) then 1 else 0)
  {
  }

  /**
   * Entering the region marks the beacon connected and, exactly when the
   * cushion is disconnected and no scan runs yet, starts a background scan
   * with its stop timer; only a debug build notifies.
   */
  lemma EnterRegionRule(c: Config, s: State)
    ensures var t := DidEnterRegion(c, s);
      && t.beaconConnected
      && t.uartConnected == s.uartConnected
      && t.scanTimers == s.scanTimers + (if CanScan(s) then 1 else 0)
      && (!s.uartConnected ==> t.scanning)
      && (s.uartConnected ==> t.scanning == s.scanning)
      && t.(beaconConnected := s.beaconConnected, scanning := s.scanning, scanTimers := s.scanTimers,
            effects := s.effects) == s
      && t.effects[..|s.effects|] == s.effects
      && (c.debugging <==> Notify(Described("Entered Region")) in t.effects[|s.effects|..])
  {
    var t := DidEnterRegion(c, s);
    if c.debugging {
      assert t.effects[|s.effects|] == Notify(Described("Entered Region"));
    }
  }

  /** `startBeacon` requests monitoring exactly when the beacon is not connected, and changes nothing else. */
  lemma StartBeaconRule(s: State)
    ensures StartBeacon(s).effects == s.effects + (if s.beaconConnected then [] else [StartMonitoring(GuardianRegion)])
    ensures StartBeacon(s).(effects := s.effects) == s
  {
  }

  /** Leaving the region stops scanning whatever the state. */
  lemma ExitStopsScanning(c: Config, s: State)
    ensures !DidExitRegion(c, s).scanning && !DidExitRegion(c, s).beaconConnected
    ensures StopScanning in DidExitRegion(c, s).effects[|s.effects|..]
  {
    var t := DidExitRegion(c, s);
    assert t.effects[|s.effects| + 1] == StopScanning;
  }

  /**
   * Ranging: an empty list changes nothing; while the cushion is
   * disconnected, ranging only triggers a background scan; while connected,
   * the first beacon's distance class becomes the proximity text, a
   * negative distance keeping the old text.
   */
  lemma RangingRule(c: Config, s: State, accuracies: seq<real>)
    ensures accuracies == [] ==> DidRangeBeacons(c, s, accuracies) == s
    ensures accuracies != [] && !s.uartConnected ==>
      DidRangeBeacons(c, s, accuracies) == BackgroundScan(c, s) &&
      DidRangeBeacons(c, s, accuracies).proximity == s.proximity
    ensures accuracies != [] && s.uartConnected ==>
      var t := DidRangeBeacons(c, s, accuracies);
      && t.proximity == (if accuracies[0] < 0.0 then s.proximity else DistanceClass(accuracies[0]).value)
      && t.effects == s.effects + [Ui(BeaconStatus(t.proximity))]
  {
  }

  /** Monitoring connects the beacon and ranges only a beacon region, and only when ranging is available. */
  lemma MonitoringRule(s: State, available: bool, region: Region)
    ensures var t := DidStartMonitoring(s, available, region);
      && (available && region.BeaconRegion? ==>
            t.beaconConnected && t.rangedRegions == s.rangedRegions + {region} &&
            t.effects == s.effects + [StartRanging(region)])
      && (!(available && region.BeaconRegion?) ==> t == s)
  {
  }

  /** The notifications a log shows, in order. */
  function Notes(effects: seq<Effect>): (ns: seq<Notification>)
    ensures |ns| <= |effects|
    decreases |effects|
  {
    if effects == [] then []
    else (if effects[0].Notify? then [effects[0].note] else []) + Notes(effects[1..])
  }

  lemma {:induction false} NotesAppend(a: seq<Effect>, b: seq<Effect>)
    ensures Notes(a + b) == Notes(a) + Notes(b)
    decreases |a|
  {
    if a == [] {
      assert a + b == b;
    } else {
      assert (a + b)[0] == a[0];
      assert (a + b)[1..] == a[1..] + b;
      NotesAppend(a[1..], b);
    }
  }

  /**
   * Discovering, connecting to and losing the cushion from the initial state:
   * a debugging build announces the connection and the disconnection, a
   * production build only that the cushion left the region; either way a
   * new scan starts after the disconnection.
   */
  lemma {:induction false} ConnectDisconnectCycle(c: Config)
    ensures var s1 := DidDiscover(c, Initial(), c.uartId);
      var s2 := DidConnect(c, s1, c.uartId);
      var s3 := DidDisconnect(c, s2);
      && s2.uartConnected && !s2.scanning
      && !s3.uartConnected && s3.scanning && s3.scanTimers == 1
      && Notes(s3.effects) == (if c.debugging then [ConnectedNote, DisconnectedNote] else [LeftRegionNote])
  {
    var s1 := DidDiscover(c, Initial(), c.uartId);
    var s2 := DidConnect(c, s1, c.uartId);
    var ui := [OnMainThread([TempText(c.notConnected), BeaconText(c.notConnected), WeightText("No"), TitleDisconnected])];
    var scan := [ScanForPeripherals(Some(BackgroundServices(c)))];
    var last := [Notify(if c.debugging then DisconnectedNote else LeftRegionNote)];
    var connect := [Connect(c.uartId), StopScanning];
    var noted := if c.debugging then [Notify(ConnectedNote)] else [];
    var discover := [OnMainThread([TitleConnected]), DiscoverServices(c.uartId, [c.serviceUuid])];
    assert DidDisconnect(c, s2).effects == connect + noted + discover + ui + scan + last;
    NotesAppend(connect + noted + discover + ui + scan, last);
    NotesAppend(connect + noted + discover + ui, scan);
    NotesAppend(connect + noted + discover, ui);
    NotesAppend(connect + noted, discover);
    NotesAppend(connect, noted);
  }
}
