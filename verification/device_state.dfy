/**
 * The monitor's state and, for every delegate callback of the cushion
 * (Bluetooth) and beacon (location) handlers, the state it leaves behind.
 * Requests to the platform (scan, connect, subscribe, notify, range, UI
 * work queued for the main thread) are appended to an effect log.  The
 * class in module Device runs these handlers imperatively and is proved to
 * produce exactly these states.
 *
 * One state stands for the controller's flags however a revision spells
 * them: `uartConnected` is `isUartConnected` / `uart_is_connected` and is
 * what `connectionState == .connected` tests (`.notConnected` is its
 * negation); `beaconConnected` is `isBeaconConnected` /
 * `beacon_is_connected`; `babyInSeat` is `isBabyInSeat` / `is_baby_in_seat`.
 */
module DeviceState {
  import opened Wrappers
  import opened Uart
  import opened Proximity

  /** Identifiers (UUIDs) as text. */
  type Id = string

  datatype Service = Service(handle: nat, uuid: Id)
  datatype Characteristic = Characteristic(handle: nat, uuid: Id)
  datatype Region = BeaconRegion(identifier: string) | OtherRegion(identifier: string)

  /** The beacon region the controller monitors. */
  const GuardianRegion: Region := BeaconRegion("Guardian")

  /** The first service identifier a background scan filters on (the others come from configuration). */
  const ExtraServiceUuid: Id := "00000001-1212-EFDE-1523-785FEABCD123"

  const ErrorTitle: string := "Error"
  const ProblemMessage: string := "There was a problem connecting to the cushion"
  const RadioOffTitle: string := "Bluetooth is not enabled"
  const RadioOffMessage: string := "Make sure that your Bluetooth is turned on"

  /** Local notifications the handlers send. */
  datatype Notification =
    | ConnectedNote
    | DisconnectedNote
    | LeftRegionNote
    | TemperatureNote
    | Described(description: string)

  /** Presentation work: spinners, title, label texts, alert boxes. */
  datatype UiUpdate =
    | HideTempSpinner
    | HideWeightSpinner
    | HideBeaconSpinner
    | TitleConnected
    | TitleDisconnected
    | TempText(text: string)
    | WeightText(text: string)
    | BeaconText(text: string)
    | BeaconStatus(text: string)
    | AlertMessage(title: string, message: string)

  /** One request made to the platform. */
  datatype Effect =
    | ScanForPeripherals(services: Option<seq<Id>>)
    | StopScanning
    | Connect(peripheral: Id)
    | CancelConnection(peripheral: Id)
    | DiscoverServices(peripheral: Id, serviceUuids: seq<Id>)
    | DiscoverCharacteristics(service: Service)
    | SubscribeNotify(characteristic: Characteristic)
    | ReadValue(characteristic: Characteristic)
    | DiscoverDescriptors(characteristic: Characteristic)
    | Notify(note: Notification)
    | StartMonitoring(region: Region)
    | StopMonitoring(region: Region)
    | StartRanging(region: Region)
    | StopRanging(region: Region)
    | Ui(update: UiUpdate)
    | OnMainThread(updates: seq<UiUpdate>)

  /**
   * Constants the handlers use but whose definitions lie outside the model:
   * the cushion's identifier and service / characteristic UUIDs, the debug
   * switch, the "not connected" text and the app's temperature conversion
   * `convertTempString`.
   */
  datatype Config = Config(
    uartId: Id,
    serviceUuid: Id,
    rxUuid: Id,
    txUuid: Id,
    debugging: bool,
    notConnected: string,
    convertTemp: string -> string)

  datatype State = State(
    uartConnected: bool,
    scanning: bool,
    beaconConnected: bool,
    babyInSeat: bool,
    selectedPeripheral: Option<Id>,
    rxCharacteristic: Option<Characteristic>,
    proximity: string,
    maxTemp: int,
    rangedRegions: set<Region>,
    /** How many 30-second stop-scan timers have been armed. */
    scanTimers: nat,
    effects: seq<Effect>)

  /** The controller as created: nothing connected, nothing scanning, threshold 80. */
  function Initial(): State {
    State(false, false, false, false, None, None, "Not Connected", 80, {}, 0, [])
  }

  function Emit(s: State, es: seq<Effect>): State {
    s.(effects := s.effects + es)
  }

  // ---------------------------------------------------------------------------
  // Cushion (Bluetooth central) handlers

  /** The guard shared by both scan entry points. */
  predicate CanScan(s: State) {
    !s.uartConnected && !s.scanning
  }

  function BackgroundServices(c: Config): seq<Id> {
    [ExtraServiceUuid, c.serviceUuid, c.rxUuid, c.txUuid]
  }

  /** `backgroundScan`: a filtered scan plus one armed stop timer, only when idle and disconnected. */
  function BackgroundScan(c: Config, s: State): State {
    if !CanScan(s) then s
    else s.(scanning := true, scanTimers := s.scanTimers + 1,
            effects := s.effects + [ScanForPeripherals(Some(BackgroundServices(c)))])
  }

  /** `foregroundScan`: the same, scanning for every service. */
  function ForegroundScan(s: State): State {
    if !CanScan(s) then s
    else s.(scanning := true, scanTimers := s.scanTimers + 1,
            effects := s.effects + [ScanForPeripherals(None)])
  }

  /** `stopScan`, also what an armed stop timer runs when it fires. */
  function StopScan(s: State): State {
    s.(scanning := false, effects := s.effects + [StopScanning])
  }

  /** `didDiscover`: only the cushion, and only while disconnected, is selected and connected to. */
  function DidDiscover(c: Config, s: State, peripheral: Id): State {
    if peripheral == c.uartId && !s.uartConnected then
      s.(selectedPeripheral := Some(peripheral), effects := s.effects + [Connect(peripheral)])
    else s
  }

  /** `didConnect`: stop scanning, notify when debugging, mark connected, discover the cushion's service. */
  function DidConnect(c: Config, s: State, peripheral: Id): State {
    var stopped := StopScan(s);
    var noted := if c.debugging then Emit(stopped, [Notify(ConnectedNote)]) else stopped;
    noted.(uartConnected := true,
           effects := noted.effects + [OnMainThread([TitleConnected]), DiscoverServices(peripheral, [c.serviceUuid])])
  }

  /** One characteristic discovery request per service, in order. */
  function DiscoverEach(services: seq<Service>): (es: seq<Effect>)
    ensures |es| == |services|
    decreases |services|
  {
    if services == [] then []
    else DiscoverEach(services[..|services| - 1]) + [DiscoverCharacteristics(services[|services| - 1])]
  }

  /** `didDiscoverServices`: an error or a missing list shows an alert; otherwise every service is explored. */
  function DidDiscoverServices(s: State, services: Option<seq<Service>>, error: bool): State {
    if services.None? || error then Emit(s, [Ui(AlertMessage(ErrorTitle, ProblemMessage))])
    else Emit(s, DiscoverEach(services.value))
  }

  /** What a pass over discovered characteristics leaves: the stored Rx characteristic and the requests made. */
  datatype Discovery = Discovery(rx: Option<Characteristic>, effects: seq<Effect>)

  /**
   * The loop of `didDiscoverCharacteristicsFor`: a characteristic with the Rx
   * UUID is stored, subscribed to and read; every characteristic has its
   * descriptors discovered.
   */
  function ScanCharacteristics(rxUuid: Id, rx: Option<Characteristic>, chars: seq<Characteristic>): Discovery
    decreases |chars|
  {
    if chars == [] then Discovery(rx, [])
    else
      var before := ScanCharacteristics(rxUuid, rx, chars[..|chars| - 1]);
      var ch := chars[|chars| - 1];
      Discovery(if ch.uuid == rxUuid then Some(ch) else before.rx,
                before.effects + CharacteristicRequests(rxUuid, ch))
  }

  /** The requests made for one discovered characteristic. */
  function CharacteristicRequests(rxUuid: Id, ch: Characteristic): seq<Effect> {
    if ch.uuid == rxUuid then [SubscribeNotify(ch), ReadValue(ch), DiscoverDescriptors(ch)]
    else [DiscoverDescriptors(ch)]
  }

  /** One more turn of the characteristic loop. */
  lemma ScanCharacteristicsNext(rxUuid: Id, rx: Option<Characteristic>, chars: seq<Characteristic>, i: nat)
    requires i < |chars|
    ensures var d := ScanCharacteristics(rxUuid, rx, chars[..i]);
      var ch := chars[i];
      ScanCharacteristics(rxUuid, rx, chars[..i + 1]) ==
        Discovery(if ch.uuid == rxUuid then Some(ch) else d.rx, d.effects + CharacteristicRequests(rxUuid, ch))
  {
    assert chars[..i + 1][..i] == chars[..i];
  }

  /** A subscription or a read is only ever made for a discovered characteristic with the Rx UUID. */
  predicate RxOnly(e: Effect, rxUuid: Id, chars: seq<Characteristic>) {
    (e.SubscribeNotify? || e.ReadValue?) ==> e.characteristic.uuid == rxUuid && e.characteristic in chars
  }

  predicate AllRxOnly(es: seq<Effect>, rxUuid: Id, chars: seq<Characteristic>) {
    forall i :: 0 <= i < |es| ==> RxOnly(es[i], rxUuid, chars)
  }

  lemma {:induction false} OnlyRxSubscribed(rxUuid: Id, rx: Option<Characteristic>, chars: seq<Characteristic>)
    ensures AllRxOnly(ScanCharacteristics(rxUuid, rx, chars).effects, rxUuid, chars)
    decreases |chars|
  {
    if chars != [] {
      var prefix := chars[..|chars| - 1];
      OnlyRxSubscribed(rxUuid, rx, prefix);
      var d := ScanCharacteristics(rxUuid, rx, chars);
      var before := ScanCharacteristics(rxUuid, rx, prefix);
      forall i | 0 <= i < |d.effects|
        ensures RxOnly(d.effects[i], rxUuid, chars)
      {
        if i < |before.effects| {
          assert d.effects[i] == before.effects[i];
          assert RxOnly(before.effects[i], rxUuid, prefix);
          var e := d.effects[i];
          if e.SubscribeNotify? || e.ReadValue? {
            var j :| 0 <= j < |prefix| && prefix[j] == e.characteristic;
            assert chars[j] == prefix[j];
          }
        }
      }
    }
  }

  /** The index of the last characteristic with the Rx UUID, or -1 when none has it. */
  function LastRxIndex(rxUuid: Id, chars: seq<Characteristic>): (k: int)
    ensures -1 <= k < |chars|
    ensures k == -1 <==> forall i :: 0 <= i < |chars| ==> chars[i].uuid != rxUuid
    ensures k >= 0 ==> chars[k].uuid == rxUuid && forall j :: k < j < |chars| ==> chars[j].uuid != rxUuid
    decreases |chars|
  {
    if chars == [] then -1
    else if chars[|chars| - 1].uuid == rxUuid then |chars| - 1
    else
      var k := LastRxIndex(rxUuid, chars[..|chars| - 1]);
      assert forall i :: 0 <= i < |chars| - 1 ==> chars[..|chars| - 1][i] == chars[i];
      k
  }

  /**
   * The stored Rx characteristic is the last discovered one with the Rx
   * UUID, and stays what it was when none has it.
   */
  lemma {:induction false} StoredRxIsLastMatch(rxUuid: Id, rx: Option<Characteristic>, chars: seq<Characteristic>)
    ensures ScanCharacteristics(rxUuid, rx, chars).rx ==
      (var k := LastRxIndex(rxUuid, chars); if k == -1 then rx else Some(chars[k]))
    decreases |chars|
  {
    if chars != [] {
      var prefix := chars[..|chars| - 1];
      StoredRxIsLastMatch(rxUuid, rx, prefix);
      if chars[|chars| - 1].uuid != rxUuid {
        var k := LastRxIndex(rxUuid, prefix);
        if k >= 0 {
          assert prefix[k] == chars[k];
        }
      }
    }
  }

  /** `didDiscoverCharacteristicsFor`: an error or a missing list shows an alert; otherwise the loop above. */
  function DidDiscoverCharacteristics(c: Config, s: State, chars: Option<seq<Characteristic>>, error: bool): State {
    if chars.None? || error then Emit(s, [Ui(AlertMessage(ErrorTitle, ProblemMessage))])
    else
      var d := ScanCharacteristics(c.rxUuid, s.rxCharacteristic, chars.value);
      s.(rxCharacteristic := d.rx, effects := s.effects + d.effects)
  }

  /** The requests one accepted payload line produces. */
  function ReadingEffects(r: Reading): seq<Effect> {
    [OnMainThread([HideTempSpinner, HideWeightSpinner]),
     OnMainThread([TempText(r.tempText), WeightText(r.weightText)])]
    + (if r.heatAlert then [Notify(TemperatureNote)] else [])
  }

  /** The reading a payload line gives under the current settings. */
  function ReadingOf(c: Config, s: State, line: string, fahrenheit: bool, tempEnabled: bool): Reading {
    Assess(SplitPayload(line, c.notConnected), c.convertTemp, fahrenheit, tempEnabled, s.maxTemp, c.notConnected)
  }

  /**
   * `didUpdateValueFor`: only an update of the stored Rx characteristic
   * whose bytes decode as text (`payload` is `None` otherwise) is read; it
   * sets the seat flag and may send the heat notification.
   */
  function DidUpdateValue(c: Config, s: State, ch: Characteristic, payload: Option<string>,
                          fahrenheit: bool, tempEnabled: bool): State {
    if s.rxCharacteristic != Some(ch) || payload.None? then s
    else
      var r := ReadingOf(c, s, payload.value, fahrenheit, tempEnabled);
      s.(babyInSeat := r.babyInSeat, effects := s.effects + ReadingEffects(r))
  }

  /**
   * `didDisconnectPeripheral`: mark disconnected, reset the labels, try a
   * background scan again, then notify (disconnected when debugging,
   * left-region otherwise).
   */
  function DidDisconnect(c: Config, s: State): State {
    var reset := s.(uartConnected := false,
                    effects := s.effects + [OnMainThread([TempText(c.notConnected), BeaconText(c.notConnected),
                                                          WeightText("No"), TitleDisconnected])]);
    var rescanned := BackgroundScan(c, reset);
    Emit(rescanned, [Notify(if c.debugging then DisconnectedNote else LeftRegionNote)])
  }

  /** `centralManagerDidUpdateState`: a radio that is not powered on only changes the presentation. */
  function DidUpdateState(s: State, poweredOn: bool): State {
    if poweredOn then s
    else Emit(s, [OnMainThread([HideTempSpinner, HideBeaconSpinner, HideWeightSpinner, TitleDisconnected,
                                AlertMessage(RadioOffTitle, RadioOffMessage)])])
  }

  /**
   * `restartCentralManager`: a new manager, which is not scanning, reports
   * its radio state at once.
   */
  function RestartCentralManager(s: State, poweredOn: bool): State {
    DidUpdateState(s.(scanning := false), poweredOn)
  }

  /** `didFailToConnect`: only a failure carrying an error marks the cushion disconnected. */
  function DidFailToConnect(s: State, error: bool): State {
    if !error then s
    else s.(uartConnected := false,
            effects := s.effects + [OnMainThread([HideTempSpinner, HideWeightSpinner, TitleDisconnected,
                                                  AlertMessage(ErrorTitle, ProblemMessage)])])
  }

  // ---------------------------------------------------------------------------
  // Beacon (location) handlers

  /** `stopRangingBeacon`. */
  function StopRangingBeacon(s: State): State {
    s.(rangedRegions := s.rangedRegions - {GuardianRegion},
       effects := s.effects + [StopRanging(GuardianRegion)])
  }

  /** `startBeacon`: monitoring is requested only while the beacon is not connected. */
  function StartBeacon(s: State): State {
    if !s.beaconConnected then Emit(s, [StartMonitoring(GuardianRegion)]) else s
  }

  /** `stopRangingAndMonitoringBeacon`. */
  function StopRangingAndMonitoringBeacon(s: State): State {
    s.(rangedRegions := s.rangedRegions - {GuardianRegion},
       effects := s.effects + [StopMonitoring(GuardianRegion), StopRanging(GuardianRegion)])
  }

  /** `didStartMonitoringFor`: with ranging available and a beacon region, connect and start ranging. */
  function DidStartMonitoring(s: State, rangingAvailable: bool, region: Region): State {
    if rangingAvailable && region.BeaconRegion? then
      s.(beaconConnected := true, rangedRegions := s.rangedRegions + {region},
         effects := s.effects + [StartRanging(region)])
    else s
  }

  /** `didEnterRegion`: the beacon is connected, and a disconnected cushion is scanned for. */
  function DidEnterRegion(c: Config, s: State): State {
    var noted := if c.debugging then Emit(s, [Notify(Described("Entered Region"))]) else s;
    var entered := noted.(beaconConnected := true);
    if !entered.uartConnected then BackgroundScan(c, entered) else entered
  }

  /** `didExitRegion`: the beacon is disconnected, its status reset, and scanning stops whatever the state. */
  function DidExitRegion(c: Config, s: State): State {
    var left := s.(beaconConnected := false,
                   effects := s.effects + [OnMainThread([BeaconStatus(c.notConnected)])]);
    var stopped := StopScan(left);
    if c.debugging then Emit(stopped, [Notify(Described("Left Region"))]) else stopped
  }

  /**
   * `didRangeBeacons`: the first beacon counts.  While the cushion is
   * disconnected it only triggers a background scan; while connected its
   * distance updates the proximity text, which is then shown.
   */
  function DidRangeBeacons(c: Config, s: State, accuracies: seq<real>): State {
    if accuracies == [] then s
    else if !s.uartConnected then BackgroundScan(c, s)
    else
      var ranged := s.(proximity := DistanceClass(accuracies[0]).GetOr(s.proximity));
      if ranged.uartConnected then Emit(ranged, [Ui(BeaconStatus(ranged.proximity))]) else ranged
  }

  // ---------------------------------------------------------------------------
  // Session teardown

  /** `stops` asks to stop ranging each region of `regions` exactly once, and nothing else. */
  predicate StopsEach(stops: seq<Effect>, regions: set<Region>) {
    && |stops| == |regions|
    && (forall i :: 0 <= i < |stops| ==> stops[i].StopRanging? && stops[i].region in regions)
    && (forall r :: r in regions ==> StopRanging(r) in stops)
  }

  /**
   * `disconnectEverything` took `s` to `t`: with no selected peripheral
   * nothing happens; otherwise its connection is cancelled and, when every
   * ranged region is a beacon region, ranging stops for each of them, in
   * some order.
   */
  predicate DisconnectedEverything(s: State, t: State) {
    if s.selectedPeripheral.None? then t == s
    else if exists r :: r in s.rangedRegions && r.OtherRegion? then
      // the cast of the ranged regions to beacon regions fails: nothing is stopped
      t == s.(effects := s.effects + [CancelConnection(s.selectedPeripheral.value)])
    else
      var n := |s.effects| + 1;
      && t == s.(rangedRegions := {}, effects := t.effects)
      && |t.effects| == n + |s.rangedRegions|
      && t.effects[..n] == s.effects + [CancelConnection(s.selectedPeripheral.value)]
      && StopsEach(t.effects[n..], s.rangedRegions)
  }

  /** Stopping one more region that was not stopped yet. */
  lemma StopsEachNext(stops: seq<Effect>, done: set<Region>, r: Region)
    requires StopsEach(stops, done) && r !in done
    ensures StopsEach(stops + [StopRanging(r)], done + {r})
  {
    var next := stops + [StopRanging(r)];
    forall x | x in done + {r} ensures StopRanging(x) in next {
      if x != r {
        var i :| 0 <= i < |stops| && stops[i] == StopRanging(x);
        assert next[i] == StopRanging(x);
      } else {
        assert next[|stops|] == StopRanging(r);
      }
    }
  }

  /** Under the invariant, cancelling and then stopping each ranged region is a complete teardown. */
  lemma TeardownComplete(s: State, stops: seq<Effect>)
    requires Inv(s) && s.selectedPeripheral.Some? && StopsEach(stops, s.rangedRegions)
    ensures DisconnectedEverything(s,
      s.(rangedRegions := {}, effects := s.effects + [CancelConnection(s.selectedPeripheral.value)] + stops))
  {
    var t := s.(rangedRegions := {}, effects := s.effects + [CancelConnection(s.selectedPeripheral.value)] + stops);
    var n := |s.effects| + 1;
    assert t.effects[..n] == s.effects + [CancelConnection(s.selectedPeripheral.value)];
    assert t.effects[n..] == stops;
  }

  // ---------------------------------------------------------------------------
  // Every handler as one event

  datatype Event =
    | BackgroundScanCalled
    | ForegroundScanCalled
    | StopScanCalled
    | ScanTimerFired
    | PeripheralDiscovered(peripheral: Id)
    | PeripheralConnected(peripheral: Id)
    | ServicesDiscovered(services: Option<seq<Service>>, serviceError: bool)
    | CharacteristicsDiscovered(characteristics: Option<seq<Characteristic>>, characteristicError: bool)
    | ValueUpdated(characteristic: Characteristic, payload: Option<string>, fahrenheit: bool, tempEnabled: bool)
    | PeripheralDisconnected
    | RadioStateUpdated(poweredOn: bool)
    | ManagerRestarted(restartedPoweredOn: bool)
    | ConnectFailed(connectError: bool)
    | StartBeaconCalled
    | StopRangingBeaconCalled
    | StopRangingAndMonitoringCalled
    | MonitoringStarted(rangingAvailable: bool, region: Region)
    | RegionEntered
    | RegionExited
    | BeaconsRanged(accuracies: seq<real>)

  function Step(c: Config, s: State, e: Event): State {
    match e
    case BackgroundScanCalled => BackgroundScan(c, s)
    case ForegroundScanCalled => ForegroundScan(s)
    case StopScanCalled => StopScan(s)
    case ScanTimerFired => StopScan(s)
    case PeripheralDiscovered(p) => DidDiscover(c, s, p)
    case PeripheralConnected(p) => DidConnect(c, s, p)
    case ServicesDiscovered(services, err) => DidDiscoverServices(s, services, err)
    case CharacteristicsDiscovered(chars, err) => DidDiscoverCharacteristics(c, s, chars, err)
    case ValueUpdated(ch, payload, fahrenheit, enabled) => DidUpdateValue(c, s, ch, payload, fahrenheit, enabled)
    case PeripheralDisconnected => DidDisconnect(c, s)
    case RadioStateUpdated(on) => DidUpdateState(s, on)
    case ManagerRestarted(on) => RestartCentralManager(s, on)
    case ConnectFailed(err) => DidFailToConnect(s, err)
    case StartBeaconCalled => StartBeacon(s)
    case StopRangingBeaconCalled => StopRangingBeacon(s)
    case StopRangingAndMonitoringCalled => StopRangingAndMonitoringBeacon(s)
    case MonitoringStarted(available, region) => DidStartMonitoring(s, available, region)
    case RegionEntered => DidEnterRegion(c, s)
    case RegionExited => DidExitRegion(c, s)
    case BeaconsRanged(accuracies) => DidRangeBeacons(c, s, accuracies)
  }

  /** The state after handling `events` in order, one at a time. */
  function Run(c: Config, s: State, events: seq<Event>): State
    decreases |events|
  {
    if events == [] then s else Run(c, Step(c, s, events[0]), events[1..])
  }

  // ---------------------------------------------------------------------------
  // Scans and their timers

  /** How many scans the log shows started. */
  function ScanCount(effects: seq<Effect>): nat
    decreases |effects|
  {
    if effects == [] then 0
    else (if effects[0].ScanForPeripherals? then 1 else 0) + ScanCount(effects[1..])
  }

  lemma {:induction false} ScanCountAppend(a: seq<Effect>, b: seq<Effect>)
    ensures ScanCount(a + b) == ScanCount(a) + ScanCount(b)
    decreases |a|
  {
    if a != [] {
      assert (a + b)[0] == a[0];
      assert (a + b)[1..] == a[1..] + b;
      ScanCountAppend(a[1..], b);
    } else {
      assert a + b == b;
    }
  }

  predicate NoScans(es: seq<Effect>) {
    forall i :: 0 <= i < |es| ==> !es[i].ScanForPeripherals?
  }

  lemma {:induction false} ScanCountNoScans(es: seq<Effect>)
    requires NoScans(es)
    ensures ScanCount(es) == 0
    decreases |es|
  {
    if es != [] {
      ScanCountNoScans(es[1..]);
    }
  }

  lemma DiscoveryHasNoScans(rxUuid: Id, rx: Option<Characteristic>, chars: seq<Characteristic>)
    ensures NoScans(ScanCharacteristics(rxUuid, rx, chars).effects)
    decreases |chars|
  {
  }

  lemma DiscoverEachHasNoScans(services: seq<Service>)
    ensures NoScans(DiscoverEach(services))
    decreases |services|
  {
  }

  /**
   * The state's bookkeeping invariant: one armed stop timer per scan
   * started, and only beacon regions ranged.  The timer half holds almost
   * by construction, since the branch that logs a scan request also counts
   * its timer; what a handler promises about when a scan starts is the gate
   * stated in DeviceProperties.ScanIsGated and ScanIsIdempotent.
   */
  predicate Inv(s: State) {
    && ScanCount(s.effects) == s.scanTimers
    && (forall r :: r in s.rangedRegions ==> r.BeaconRegion?)
  }

  /** Appending requests with no scan among them keeps the timer count right. */
  lemma EmitNoScans(s: State, es: seq<Effect>)
    requires NoScans(es)
    ensures ScanCount(s.effects + es) == ScanCount(s.effects)
  {
    ScanCountAppend(s.effects, es);
    ScanCountNoScans(es);
  }

  /** Both scan entry points keep one timer per scan. */
  lemma ScansKeepInv(c: Config, s: State)
    requires Inv(s)
    ensures Inv(BackgroundScan(c, s)) && Inv(ForegroundScan(s)) && Inv(StopScan(s))
  {
    ScanCountAppend(s.effects, [ScanForPeripherals(Some(BackgroundServices(c)))]);
    ScanCountAppend(s.effects, [ScanForPeripherals(None)]);
    EmitNoScans(s, [StopScanning]);
  }

  lemma ConnectKeepsInv(c: Config, s: State, p: Id)
    requires Inv(s)
    ensures Inv(DidDiscover(c, s, p)) && Inv(DidConnect(c, s, p))
  {
    EmitNoScans(s, [Connect(p)]);
    ScansKeepInv(c, s);
    var stopped := StopScan(s);
    var noted := if c.debugging then Emit(stopped, [Notify(ConnectedNote)]) else stopped;
    EmitNoScans(stopped, [Notify(ConnectedNote)]);
    EmitNoScans(noted, [OnMainThread([TitleConnected]), DiscoverServices(p, [c.serviceUuid])]);
  }

  lemma DiscoveryKeepsInv(c: Config, s: State, services: Option<seq<Service>>, chars: Option<seq<Characteristic>>, error: bool)
    requires Inv(s)
    ensures Inv(DidDiscoverServices(s, services, error)) && Inv(DidDiscoverCharacteristics(c, s, chars, error))
  {
    EmitNoScans(s, [Ui(AlertMessage(ErrorTitle, ProblemMessage))]);
    if services.Some? {
      DiscoverEachHasNoScans(services.value);
      EmitNoScans(s, DiscoverEach(services.value));
    }
    if chars.Some? {
      DiscoveryHasNoScans(c.rxUuid, s.rxCharacteristic, chars.value);
      EmitNoScans(s, ScanCharacteristics(c.rxUuid, s.rxCharacteristic, chars.value).effects);
    }
  }

  lemma UpdateKeepsInv(c: Config, s: State, ch: Characteristic, payload: Option<string>, fahrenheit: bool, enabled: bool)
    requires Inv(s)
    ensures Inv(DidUpdateValue(c, s, ch, payload, fahrenheit, enabled))
  {
    if payload.Some? {
      EmitNoScans(s, ReadingEffects(ReadingOf(c, s, payload.value, fahrenheit, enabled)));
    }
  }

  lemma DisconnectKeepsInv(c: Config, s: State)
    requires Inv(s)
    ensures Inv(DidDisconnect(c, s))
  {
    var ui := [OnMainThread([TempText(c.notConnected), BeaconText(c.notConnected), WeightText("No"), TitleDisconnected])];
    var reset := s.(uartConnected := false, effects := s.effects + ui);
    EmitNoScans(s, ui);
    ScansKeepInv(c, reset);
    EmitNoScans(BackgroundScan(c, reset), [Notify(if c.debugging then DisconnectedNote else LeftRegionNote)]);
  }

  lemma FailureKeepsInv(s: State, on: bool, error: bool)
    requires Inv(s)
    ensures Inv(DidUpdateState(s, on)) && Inv(DidFailToConnect(s, error))
  {
    EmitNoScans(s, [OnMainThread([HideTempSpinner, HideBeaconSpinner, HideWeightSpinner, TitleDisconnected,
                                  AlertMessage(RadioOffTitle, RadioOffMessage)])]);
    EmitNoScans(s, [OnMainThread([HideTempSpinner, HideWeightSpinner, TitleDisconnected,
                                  AlertMessage(ErrorTitle, ProblemMessage)])]);
  }

  lemma BeaconCallsKeepInv(s: State, available: bool, region: Region)
    requires Inv(s)
    ensures Inv(StartBeacon(s)) && Inv(StopRangingBeacon(s)) && Inv(StopRangingAndMonitoringBeacon(s))
    ensures Inv(DidStartMonitoring(s, available, region))
  {
    EmitNoScans(s, [StartMonitoring(GuardianRegion)]);
    EmitNoScans(s, [StopRanging(GuardianRegion)]);
    EmitNoScans(s, [StopMonitoring(GuardianRegion), StopRanging(GuardianRegion)]);
    EmitNoScans(s, [StartRanging(region)]);
  }

  lemma RegionKeepsInv(c: Config, s: State, accuracies: seq<real>)
    requires Inv(s)
    ensures Inv(DidEnterRegion(c, s)) && Inv(DidExitRegion(c, s)) && Inv(DidRangeBeacons(c, s, accuracies))
  {
    ScansKeepInv(c, s);
    var noted := if c.debugging then Emit(s, [Notify(Described("Entered Region"))]) else s;
    EmitNoScans(s, [Notify(Described("Entered Region"))]);
    ScansKeepInv(c, noted.(beaconConnected := true));
    var left := s.(beaconConnected := false, effects := s.effects + [OnMainThread([BeaconStatus(c.notConnected)])]);
    EmitNoScans(s, [OnMainThread([BeaconStatus(c.notConnected)])]);
    ScansKeepInv(c, left);
    EmitNoScans(StopScan(left), [Notify(Described("Left Region"))]);
    if accuracies != [] && s.uartConnected {
      EmitNoScans(s, [Ui(BeaconStatus(DistanceClass(accuracies[0]).GetOr(s.proximity)))]);
    }
  }

  /** The callbacks of the Bluetooth central and peripheral delegates, and the scan entry points. */
  predicate CentralEvent(e: Event) {
    || e.BackgroundScanCalled? || e.ForegroundScanCalled? || e.StopScanCalled? || e.ScanTimerFired?
    || e.PeripheralDiscovered? || e.PeripheralConnected? || e.ServicesDiscovered?
    || e.CharacteristicsDiscovered? || e.ValueUpdated? || e.PeripheralDisconnected?
    || e.RadioStateUpdated? || e.ManagerRestarted? || e.ConnectFailed?
  }

  lemma CentralStepKeepsInv(c: Config, s: State, e: Event)
    requires Inv(s) && CentralEvent(e)
    ensures Inv(Step(c, s, e))
  {
    if e.BackgroundScanCalled? || e.ForegroundScanCalled? || e.StopScanCalled? || e.ScanTimerFired? {
      ScansKeepInv(c, s);
    } else if e.PeripheralDiscovered? || e.PeripheralConnected? {
      ConnectKeepsInv(c, s, e.peripheral);
    } else if e.ServicesDiscovered? {
      DiscoveryKeepsInv(c, s, e.services, None, e.serviceError);
    } else if e.CharacteristicsDiscovered? {
      DiscoveryKeepsInv(c, s, None, e.characteristics, e.characteristicError);
    } else if e.ValueUpdated? {
      UpdateKeepsInv(c, s, e.characteristic, e.payload, e.fahrenheit, e.tempEnabled);
    } else if e.PeripheralDisconnected? {
      DisconnectKeepsInv(c, s);
    } else if e.RadioStateUpdated? {
      FailureKeepsInv(s, e.poweredOn, false);
    } else if e.ManagerRestarted? {
      FailureKeepsInv(s.(scanning := false), e.restartedPoweredOn, false);
    } else {
      FailureKeepsInv(s, true, e.connectError);
    }
  }

  lemma LocationStepKeepsInv(c: Config, s: State, e: Event)
    requires Inv(s) && !CentralEvent(e)
    ensures Inv(Step(c, s, e))
  {
    if e.MonitoringStarted? {
      BeaconCallsKeepInv(s, e.rangingAvailable, e.region);
    } else if e.StartBeaconCalled? || e.StopRangingBeaconCalled? || e.StopRangingAndMonitoringCalled? {
      BeaconCallsKeepInv(s, false, GuardianRegion);
    } else if e.BeaconsRanged? {
      RegionKeepsInv(c, s, e.accuracies);
    } else {
      RegionKeepsInv(c, s, []);
    }
  }

  /** Every handler keeps the invariant: each scan it starts arms exactly one stop timer. */
  lemma StepKeepsInv(c: Config, s: State, e: Event)
    requires Inv(s)
    ensures Inv(Step(c, s, e))
  {
    if CentralEvent(e) {
      CentralStepKeepsInv(c, s, e);
    } else {
      LocationStepKeepsInv(c, s, e);
    }
  }

  /** From the initial state, any sequence of callbacks keeps one armed stop timer per scan started. */
  lemma {:induction false} RunKeepsInv(c: Config, s: State, events: seq<Event>)
    requires Inv(s)
    ensures Inv(Run(c, s, events))
    decreases |events|
  {
    if events != [] {
      StepKeepsInv(c, s, events[0]);
      RunKeepsInv(c, Step(c, s, events[0]), events[1..]);
    }
  }

  lemma InitialInv()
    ensures Inv(Initial())
  {
  }
}
