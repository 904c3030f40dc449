/**
 * The device screen's controller as an object: the cushion and beacon
 * delegate callbacks, the scan entry points with their stop timers, the
 * login spinners and the session teardown.  Each method updates the
 * controller's fields in place and is proved to leave exactly the state
 * the matching function of module DeviceState describes.
 */
module Device {
  import opened Wrappers
  import opened Utilities
  import opened Temperature
  import opened Spinners
  import opened Uart
  import opened Proximity
  import opened DeviceState

  /** What a scan timer's callback does. */
  datatype TimerTask = StopScanTask

  /** Every scan stops itself after this many seconds. */
  const ScanTimeout: real := 30.0

  class DeviceMonitor {
    const config: Config
    /** The app-wide settings (unit, temperature sensor switch). */
    const settings: AppSettings
    /** The status rows' spinners and the title spinner. */
    const panel: StatusPanel

    var uartConnected: bool
    /** The central manager's `isScanning`. */
    var scanning: bool
    var beaconConnected: bool
    var babyInSeat: bool
    var selectedPeripheral: Option<Id>
    var rxCharacteristic: Option<Characteristic>
    var proximity: string
    var maxTemp: int
    /** The location manager's `rangedRegions`. */
    var rangedRegions: set<Region>
    /** Every stop timer a scan has armed, oldest first. */
    var scanTimers: seq<CustomTimer<TimerTask>>
    /** Requests made to the platform so far. */
    var effects: seq<Effect>

    /** The controller's state as a value. */
    function Snapshot(): State
      reads this
    {
      State(uartConnected, scanning, beaconConnected, babyInSeat, selectedPeripheral, rxCharacteristic,
            proximity, maxTemp, rangedRegions, |scanTimers|, effects)
    }

    /** One 30-second stop timer per scan started, and only beacon regions ranged. */
    ghost predicate Valid()
      reads this
    {
      && Inv(Snapshot())
      && (forall i :: 0 <= i < |scanTimers| ==>
            scanTimers[i].timeInterval == ScanTimeout && scanTimers[i].update == Some(StopScanTask))
    }

    constructor (config: Config, settings: AppSettings, panel: StatusPanel)
      ensures Valid()
      ensures Snapshot() == Initial()
      ensures this.config == config && this.settings == settings && this.panel == panel
    {
      this.config := config;
      this.settings := settings;
      this.panel := panel;
      uartConnected := false;
      scanning := false;
      beaconConnected := false;
      babyInSeat := false;
      selectedPeripheral := None;
      rxCharacteristic := None;
      proximity := "Not Connected";
      maxTemp := 80;
      rangedRegions := {};
      scanTimers := [];
      effects := [];
    }

    /** Logs requests that start no scan. */
    method Emit(es: seq<Effect>)
      requires Valid() && NoScans(es)
      modifies this
      ensures Valid() && scanTimers == old(scanTimers)
      ensures Snapshot() == DeviceState.Emit(old(Snapshot()), es)
    {
      ScanCountAppend(effects, es);
      ScanCountNoScans(es);
      effects := effects + es;
    }

    /** Starts a scan with the given filter and arms a fresh 30-second timer that will stop it. */
    method StartScan(filter: Option<seq<Id>>)
      requires Valid()
      modifies this
      ensures Valid()
      ensures Snapshot() == old(Snapshot()).(scanning := true, scanTimers := old(|scanTimers|) + 1,
                                            effects := old(effects) + [ScanForPeripherals(filter)])
      ensures scanTimers[..old(|scanTimers|)] == old(scanTimers)
      ensures var timer := scanTimers[old(|scanTimers|)];
        fresh(timer) && timer.Valid() && timer.live == {0} && timer.count == 0
    {
      ScanCountAppend(effects, [ScanForPeripherals(filter)]);
      effects := effects + [ScanForPeripherals(filter)];
      scanning := true;
      var timer := new CustomTimer(ScanTimeout, StopScanTask);
      timer.Start();
      scanTimers := scanTimers + [timer];
    }

    /** `backgroundScan`. */
    method BackgroundScan()
      requires Valid()
      modifies this
      ensures Valid() && Snapshot() == DeviceState.BackgroundScan(config, old(Snapshot()))
      ensures scanTimers[..old(|scanTimers|)] == old(scanTimers)
    {
      if !uartConnected && !scanning {
        StartScan(Some(BackgroundServices(config)));
      }
    }

    /** `foregroundScan`. */
    method ForegroundScan()
      requires Valid()
      modifies this
      ensures Valid() && Snapshot() == DeviceState.ForegroundScan(old(Snapshot()))
      ensures scanTimers[..old(|scanTimers|)] == old(scanTimers)
    {
      if !uartConnected && !scanning {
        StartScan(None);
      }
    }

    /** `stopScan`. */
    method StopScan()
      requires Valid()
      modifies this
      ensures Valid() && Snapshot() == DeviceState.StopScan(old(Snapshot())) && scanTimers == old(scanTimers)
    {
      Emit([StopScanning]);
      scanning := false;
    }

    /**
     * The run loop fires platform timer `t` of the `i`-th stop timer: the
     * timer is spent and its callback stops scanning, whatever scan is
     * running by then.
     */
    method ScanTimerFired(i: nat, t: nat)
      requires Valid() && i < |scanTimers| && scanTimers[i].Valid() && t in scanTimers[i].live
      modifies this, scanTimers[i]
      ensures Valid() && Snapshot() == DeviceState.StopScan(old(Snapshot())) && scanTimers == old(scanTimers)
      ensures scanTimers[i].Valid() && scanTimers[i].count == old(scanTimers[i].count) + 1
      ensures scanTimers[i].live == old(scanTimers[i].live) - {t}
    {
      var timer := scanTimers[i];
      var task := timer.Fire(t);
      if task == Some(StopScanTask) {
        StopScan();
      }
    }

    /** `restartCentralManager`. */
    method RestartCentralManager(poweredOn: bool)
      requires Valid() && panel.Valid()
      modifies this, panel
      ensures Valid() && Snapshot() == DeviceState.RestartCentralManager(old(Snapshot()), poweredOn)
      ensures scanTimers == old(scanTimers)
      ensures panel.Valid() && panel.titleAnimating == old(panel.titleAnimating)
      ensures forall row :: panel.Get(row) == (if poweredOn then old(panel.Get(row)) else Hide(old(panel.Get(row))))
    {
      scanning := false;
      DidUpdateState(poweredOn);
    }

    /** `centralManager(_:didDiscover:...)`. */
    method DidDiscover(peripheral: Id)
      requires Valid()
      modifies this
      ensures Valid() && Snapshot() == DeviceState.DidDiscover(config, old(Snapshot()), peripheral)
      ensures scanTimers == old(scanTimers)
    {
      if peripheral == config.uartId && !uartConnected {
        selectedPeripheral := Some(peripheral);
        Emit([Connect(peripheral)]);
      }
    }

    /** `centralManager(_:didConnect:)`. */
    method DidConnect(peripheral: Id)
      requires Valid()
      modifies this
      ensures Valid() && Snapshot() == DeviceState.DidConnect(config, old(Snapshot()), peripheral)
      ensures scanTimers == old(scanTimers)
    {
      StopScan();
      if config.debugging {
        Emit([Notify(ConnectedNote)]);
      }
      uartConnected := true;
      Emit([OnMainThread([TitleConnected])]);
      Emit([DiscoverServices(peripheral, [config.serviceUuid])]);
    }

    /** `peripheral(_:didDiscoverServices:)`. */
    method DidDiscoverServices(services: Option<seq<Service>>, error: bool)
      requires Valid()
      modifies this
      ensures Valid() && Snapshot() == DeviceState.DidDiscoverServices(old(Snapshot()), services, error)
      ensures scanTimers == old(scanTimers)
    {
      if services.None? || error {
        Emit([Ui(AlertMessage(ErrorTitle, ProblemMessage))]);
        return;
      }
      var list := services.value;
      var requests: seq<Effect> := [];
      for i := 0 to |list|
        modifies {}
        invariant requests == DiscoverEach(list[..i])
      {
        assert list[..i + 1][..i] == list[..i];
        requests := requests + [DiscoverCharacteristics(list[i])];
      }
      assert list[..|list|] == list;
      DiscoverEachHasNoScans(list);
      Emit(requests);
    }

    /** `peripheral(_:didDiscoverCharacteristicsFor:error:)`. */
    method DidDiscoverCharacteristics(chars: Option<seq<Characteristic>>, error: bool)
      requires Valid()
      modifies this
      ensures Valid() && Snapshot() == DeviceState.DidDiscoverCharacteristics(config, old(Snapshot()), chars, error)
      ensures scanTimers == old(scanTimers)
    {
      if chars.None? || error {
        Emit([Ui(AlertMessage(ErrorTitle, ProblemMessage))]);
        return;
      }
      VisitCharacteristics(chars.value);
    }

    /** The loop of `didDiscoverCharacteristicsFor` over the discovered characteristics. */
    method VisitCharacteristics(list: seq<Characteristic>)
      requires Valid()
      modifies this
      ensures Valid() && scanTimers == old(scanTimers)
      ensures var d := ScanCharacteristics(config.rxUuid, old(rxCharacteristic), list);
        Snapshot() == old(Snapshot()).(rxCharacteristic := d.rx, effects := old(effects) + d.effects)
    {
      var rx := rxCharacteristic;
      var requests: seq<Effect> := [];
      for i := 0 to |list|
        modifies {}
        invariant Discovery(rx, requests) == ScanCharacteristics(config.rxUuid, rxCharacteristic, list[..i])
      {
        ScanCharacteristicsNext(config.rxUuid, rxCharacteristic, list, i);
        var ch := list[i];
        if ch.uuid == config.rxUuid {
          rx := Some(ch);
          requests := requests + [SubscribeNotify(ch), ReadValue(ch), DiscoverDescriptors(ch)];
        } else {
          requests := requests + [DiscoverDescriptors(ch)];
        }
      }
      assert list[..|list|] == list;
      DiscoveryHasNoScans(config.rxUuid, rxCharacteristic, list);
      Emit(requests);
      rxCharacteristic := rx;
    }

    /**
     * `peripheral(_:didUpdateValueFor:error:)`, reading the unit and the
     * sensor switch from the app settings.
     */
    method DidUpdateValue(ch: Characteristic, payload: Option<string>)
      requires Valid() && panel.Valid()
      modifies this, panel
      ensures Valid() && scanTimers == old(scanTimers)
      ensures Snapshot() == DeviceState.DidUpdateValue(config, old(Snapshot()), ch, payload,
                                                       settings.fahrenheit, settings.tempEnabled)
      // an accepted line hides the temperature and weight spinners; nothing else on the panel moves
      ensures panel.Valid() && panel.titleAnimating == old(panel.titleAnimating)
      ensures panel.Get(BeaconRow) == old(panel.Get(BeaconRow))
      ensures var accepted := old(rxCharacteristic) == Some(ch) && payload.Some?;
              && panel.Get(TempRow) == (if accepted then Hide(old(panel.Get(TempRow))) else old(panel.Get(TempRow)))
              && panel.Get(WeightRow) == (if accepted then Hide(old(panel.Get(WeightRow))) else old(panel.Get(WeightRow)))
    {
      if rxCharacteristic != Some(ch) || payload.None? {
        return;
      }
      // the main-thread block runs at once: delegate callbacks already arrive on the main queue
      HideReadingSpinners();
      var fields := SplitPayload(payload.value, config.notConnected);
      var r := Assess(fields, config.convertTemp, settings.fahrenheit, settings.tempEnabled, maxTemp,
                      config.notConnected);
      babyInSeat := r.babyInSeat;
      // spinners hidden, labels set, then the heat notification when due
      Emit(ReadingEffects(r));
    }

    /** `centralManager(_:didDisconnectPeripheral:error:)`. */
    method DidDisconnect()
      requires Valid()
      modifies this
      ensures Valid() && Snapshot() == DeviceState.DidDisconnect(config, old(Snapshot()))
      ensures scanTimers[..old(|scanTimers|)] == old(scanTimers)
    {
      uartConnected := false;
      Emit([OnMainThread([TempText(config.notConnected), BeaconText(config.notConnected),
                          WeightText("No"), TitleDisconnected])]);
      BackgroundScan();
      if config.debugging {
        Emit([Notify(DisconnectedNote)]);
      } else {
        Emit([Notify(LeftRegionNote)]);
      }
    }

    /** `hideTempSpinner()` then `hideWeightSpinner()`. */
    method HideReadingSpinners()
      requires panel.Valid()
      modifies panel
      ensures panel.Valid() && panel.titleAnimating == old(panel.titleAnimating)
      ensures panel.Get(TempRow) == Hide(old(panel.Get(TempRow)))
      ensures panel.Get(WeightRow) == Hide(old(panel.Get(WeightRow)))
      ensures panel.Get(BeaconRow) == old(panel.Get(BeaconRow))
    {
      panel.HideSpinner(TempRow);
      panel.HideSpinner(WeightRow);
    }

    /** `centralManagerDidUpdateState`. */
    method DidUpdateState(poweredOn: bool)
      requires Valid() && panel.Valid()
      modifies this, panel
      ensures Valid() && Snapshot() == DeviceState.DidUpdateState(old(Snapshot()), poweredOn)
      ensures scanTimers == old(scanTimers)
      // a radio that is off hides all three row spinners
      ensures panel.Valid() && panel.titleAnimating == old(panel.titleAnimating)
      ensures forall row :: panel.Get(row) == (if poweredOn then old(panel.Get(row)) else Hide(old(panel.Get(row))))
    {
      if !poweredOn {
        panel.HideSpinner(TempRow);
        panel.HideSpinner(BeaconRow);
        panel.HideSpinner(WeightRow);
        Emit([OnMainThread([HideTempSpinner, HideBeaconSpinner, HideWeightSpinner, TitleDisconnected,
                            AlertMessage(RadioOffTitle, RadioOffMessage)])]);
      }
    }

    /** `centralManager(_:didFailToConnect:error:)`. */
    method DidFailToConnect(error: bool)
      requires Valid() && panel.Valid()
      modifies this, panel
      ensures Valid() && Snapshot() == DeviceState.DidFailToConnect(old(Snapshot()), error)
      ensures scanTimers == old(scanTimers)
      // a failure with an error hides the temperature and weight spinners
      ensures panel.Valid() && panel.titleAnimating == old(panel.titleAnimating)
      ensures panel.Get(BeaconRow) == old(panel.Get(BeaconRow))
      ensures panel.Get(TempRow) == (if error then Hide(old(panel.Get(TempRow))) else old(panel.Get(TempRow)))
      ensures panel.Get(WeightRow) == (if error then Hide(old(panel.Get(WeightRow))) else old(panel.Get(WeightRow)))
    {
      if error {
        HideReadingSpinners();
        uartConnected := false;
        Emit([OnMainThread([HideTempSpinner, HideWeightSpinner, TitleDisconnected,
                            AlertMessage(ErrorTitle, ProblemMessage)])]);
      }
    }

    /** `stopRangingBeacon`. */
    method StopRangingBeacon()
      requires Valid()
      modifies this
      ensures Valid() && Snapshot() == DeviceState.StopRangingBeacon(old(Snapshot()))
      ensures scanTimers == old(scanTimers)
    {
      Emit([StopRanging(GuardianRegion)]);
      rangedRegions := rangedRegions - {GuardianRegion};
    }

    /** `startBeacon`. */
    method StartBeacon()
      requires Valid()
      modifies this
      ensures Valid() && Snapshot() == DeviceState.StartBeacon(old(Snapshot()))
      ensures scanTimers == old(scanTimers)
    {
      if !beaconConnected {
        Emit([StartMonitoring(GuardianRegion)]);
      }
    }

    /** `stopRangingAndMonitoringBeacon`. */
    method StopRangingAndMonitoringBeacon()
      requires Valid()
      modifies this
      ensures Valid() && Snapshot() == DeviceState.StopRangingAndMonitoringBeacon(old(Snapshot()))
      ensures scanTimers == old(scanTimers)
    {
      Emit([StopMonitoring(GuardianRegion)]);
      Emit([StopRanging(GuardianRegion)]);
      rangedRegions := rangedRegions - {GuardianRegion};
    }

    /** `locationManager(_:didStartMonitoringFor:)`. */
    method DidStartMonitoring(rangingAvailable: bool, region: Region)
      requires Valid()
      modifies this
      ensures Valid() && Snapshot() == DeviceState.DidStartMonitoring(old(Snapshot()), rangingAvailable, region)
      ensures scanTimers == old(scanTimers)
    {
      if rangingAvailable {
        if !region.BeaconRegion? {
          return;
        }
        beaconConnected := true;
        Emit([StartRanging(region)]);
        rangedRegions := rangedRegions + {region};
      }
    }

    /** `locationManager(_:didEnterRegion:)`. */
    method DidEnterRegion()
      requires Valid()
      modifies this
      ensures Valid() && Snapshot() == DeviceState.DidEnterRegion(config, old(Snapshot()))
      ensures scanTimers[..old(|scanTimers|)] == old(scanTimers)
    {
      if config.debugging {
        Emit([Notify(Described("Entered Region"))]);
      }
      beaconConnected := true;
      if !uartConnected {
        BackgroundScan();
      }
    }

    /** `locationManager(_:didExitRegion:)`. */
    method DidExitRegion()
      requires Valid()
      modifies this
      ensures Valid() && Snapshot() == DeviceState.DidExitRegion(config, old(Snapshot()))
      ensures scanTimers == old(scanTimers)
    {
      beaconConnected := false;
      Emit([OnMainThread([BeaconStatus(config.notConnected)])]);
      StopScan();
      if config.debugging {
        Emit([Notify(Described("Left Region"))]);
      }
    }

    /** `locationManager(_:didRangeBeacons:in:)`, given each ranged beacon's accuracy in metres. */
    method DidRangeBeacons(accuracies: seq<real>)
      requires Valid()
      modifies this
      ensures Valid() && Snapshot() == DeviceState.DidRangeBeacons(config, old(Snapshot()), accuracies)
      ensures scanTimers[..old(|scanTimers|)] == old(scanTimers)
    {
      if accuracies == [] {
        return;
      }
      if !uartConnected {
        BackgroundScan();
        return;
      }
      var distance := accuracies[0];
      if distance < 0.0 {
      } else if distance <= 10.0 {
        proximity := VeryClose;
      } else if distance <= 20.0 {
        proximity := Near;
      } else {
        proximity := Far;
      }
      if uartConnected {
        Emit([Ui(BeaconStatus(proximity))]);
      }
    }

    /**
     * The spinner part of `checkIfUserLoggedIn`: the temperature and weight
     * rows spin while the cushion is disconnected, the beacon row while the
     * beacon is, and the title always.
     */
    method ShowLoginSpinners()
      requires panel.Valid()
      modifies panel
      ensures panel.Valid() && panel.titleAnimating
      ensures panel.Get(TempRow) == (if uartConnected then old(panel.Get(TempRow)) else Show(old(panel.Get(TempRow))))
      ensures panel.Get(WeightRow) == (if uartConnected then old(panel.Get(WeightRow)) else Show(old(panel.Get(WeightRow))))
      ensures panel.Get(BeaconRow) == (if beaconConnected then old(panel.Get(BeaconRow)) else Show(old(panel.Get(BeaconRow))))
    {
      if !uartConnected {
        panel.ShowSpinner(WeightRow);
        panel.ShowSpinner(TempRow);
      }
      if !beaconConnected {
        panel.ShowSpinner(BeaconRow);
      }
      panel.ShowTitleSpinner();
    }

    /**
     * `disconnectEverything`: cancels the selected peripheral's connection
     * and stops ranging every ranged region, one at a time.
     */
    method DisconnectEverything()
      requires Valid()
      modifies this
      ensures Valid() && scanTimers == old(scanTimers)
      ensures DisconnectedEverything(old(Snapshot()), Snapshot())
    {
      if selectedPeripheral.None? {
        return;
      }
      ghost var s0 := Snapshot();
      var peripheral := selectedPeripheral.value;
      Emit([CancelConnection(peripheral)]);
      var stops := RangingStops(rangedRegions);
      Emit(stops);
      rangedRegions := {};
      TeardownComplete(s0, stops);
    }
  }

  /** `rangedRegions.forEach(stopRangingBeacons)`: one stop request per region, each region once, in some order. */
  method RangingStops(regions: set<Region>) returns (stops: seq<Effect>)
    ensures StopsEach(stops, regions) && NoScans(stops)
  {
    var remaining := regions;
    stops := [];
    while remaining != {}
      invariant remaining <= regions
      invariant StopsEach(stops, regions - remaining)
      decreases remaining
    {
      var r :| r in remaining;
      assert regions - (remaining - {r}) == (regions - remaining) + {r};
      StopsEachNext(stops, regions - remaining, r);
      stops := stops + [StopRanging(r)];
      remaining := remaining - {r};
    }
  }
}
