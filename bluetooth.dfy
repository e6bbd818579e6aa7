/** The Bluetooth LE collector: which discoveries and connection events
    become frames, the list of peripherals already reported, and the
    central manager's life cycle. */
module Bluetooth {
  import opened Common
  import opened Datasource

  const BluetoothEventType: int := 108
  /** The state code of a connected peripheral, and of every other one. */
  const ConnectedCode: int := 3
  const OtherCode: int := 1

  /** `CBManager.authorization`; `Future` stands for a value added after
      the code was written. */
  datatype Authorization = NotDetermined | Restricted | Denied | AllowedAlways | Future

  /** `checkPermission`. */
  function CheckPermission(a: Authorization): (r: bool)
  {
    match a
    case NotDetermined => true
    case Restricted => true
    case Denied => false
    case AllowedAlways => true
    case Future => false
  }

  /** Permission is refused exactly for a denied or an unknown
      authorization. */
  lemma PermissionRefused(a: Authorization)
    ensures !CheckPermission(a) <==> a == Denied || a == Future
  {
  }

  /** `CBManagerState`. */
  datatype ManagerState = Unknown | Resetting | Unsupported | Unauthorized | PoweredOff | PoweredOn

  /** `CBPeripheralState`. */
  datatype PeripheralState = Disconnected | Connecting | Connected | Disconnecting

  /** What the collector reads of a peripheral: its name, its identifier
      (as its `uuidString`) and its connection state. */
  datatype Peripheral = Peripheral(name: Option<string>, identifier: string, state: PeripheralState)

  /** The frame `[108, ts, [[name, uuid, code]]]`. */
  function DeviceFrame(timestamp: int, name: string, uuid: string, code: int): DataType
  {
    Array([Int(BluetoothEventType), Int64(timestamp), Array([Array([Str(name), Str(uuid), Int(code)])])])
  }

  /** The code a discovered peripheral is reported with. */
  function StateCode(s: PeripheralState): (r: int)
    ensures r == ConnectedCode <==> s == Connected
    ensures r == ConnectedCode || r == OtherCode
  {
    if s == Connected then ConnectedCode else OtherCode
  }

  /** The name a discovery is reported under: the peripheral's own, else
      the advertised local name. */
  function DiscoveredName(p: Peripheral, advertisedName: Option<string>): (r: Option<string>)
    ensures r.None? <==> p.name.None? && advertisedName.None?
    ensures p.name.Some? ==> r == p.name
  {
    if p.name.Some? then p.name else advertisedName
  }

  datatype ManagerCall = RegisteredForConnectionEvents | Scanned | StoppedScan

  /** A central manager: its state, and the calls it received. */
  class CentralManager {
    const state: ManagerState
    var calls: seq<ManagerCall>

    constructor (state: ManagerState)
      ensures this.state == state && calls == []
    {
      this.state := state;
      calls := [];
    }

    method RegisterForConnectionEvents()
      modifies this
      ensures calls == old(calls) + [RegisteredForConnectionEvents]
    {
      calls := calls + [RegisteredForConnectionEvents];
    }

    method ScanForPeripherals()
      modifies this
      ensures calls == old(calls) + [Scanned]
    {
      calls := calls + [Scanned];
    }

    method StopScan()
      modifies this
      ensures calls == old(calls) + [StoppedScan]
    {
      calls := calls + [StoppedScan];
    }
  }

  class TrapBluetoothCollector {
    var manager: Option<CentralManager>
    /** The identifiers already reported. */
    var peripherals: seq<string>

    ghost predicate Valid()
      reads this
    {
      NoDuplicates(peripherals)
    }

    constructor ()
      ensures Valid() && manager == None && peripherals == []
    {
      manager := None;
      peripherals := [];
    }

    /** `checkConfiguration`: the usage description is in the bundle and
        a manager, if there is one, does not report Bluetooth unsupported. */
    function CheckConfiguration(bundleOk: bool): (r: bool)
      reads this
      ensures r ==> bundleOk
      ensures manager.None? ==> r == bundleOk
      ensures manager.Some? && manager.value.state == Unsupported ==> !r
    {
      bundleOk && (manager.None? || manager.value.state != Unsupported)
    }

    /** `start(withConfig:)`: a manager is set up, in the state `initial`,
        when permission is granted and there is none yet. */
    method Start(authorization: Authorization, initial: ManagerState)
      modifies this
      ensures peripherals == old(peripherals)
      ensures old(manager).Some? ==> manager == old(manager)
      ensures old(manager).None? && CheckPermission(authorization) ==>
        manager.Some? && fresh(manager.value) && manager.value.state == initial && manager.value.calls == []
      ensures old(manager).None? && !CheckPermission(authorization) ==> manager == None
    {
      if CheckPermission(authorization) && manager.None? {
        var central := new CentralManager(initial);
        manager := Some(central);
      }
    }

    /** `requestPermission`: a manager is set up unless there is one. */
    method RequestPermission(initial: ManagerState)
      modifies this
      ensures peripherals == old(peripherals) && manager.Some?
      ensures old(manager).Some? ==> manager == old(manager)
      ensures old(manager).None? ==> fresh(manager.value) && manager.value.state == initial && manager.value.calls == []
    {
      if manager.None? {
        var central := new CentralManager(initial);
        manager := Some(central);
      }
    }

    /** `stop()`: a present manager is told to stop scanning (its
        `isScanning` is never nil), and the manager is dropped. */
    method Stop()
      modifies this, if manager.Some? then {manager.value} else {}
      ensures manager == None && peripherals == old(peripherals)
      ensures old(manager).Some? ==> old(manager).value.calls == old(manager.value.calls) + [StoppedScan]
    {
      if manager.Some? {
        manager.value.StopScan();
      }
      manager := None;
    }

    /** `centralManagerDidUpdateState`: only a powered-on manager is asked
        for connection events and to scan. */
    method DidUpdateState(central: CentralManager)
      modifies central
      ensures central.state == PoweredOn ==> central.calls == old(central.calls) + [RegisteredForConnectionEvents, Scanned]
      ensures central.state != PoweredOn ==> central.calls == old(central.calls)
    {
      if central.state == PoweredOn {
        central.RegisterForConnectionEvents();
        central.ScanForPeripherals();
      }
    }

    /** `centralManager(_:didDiscover:...)`: a named peripheral not
        reported before is recorded and reported once, with its state
        code, at the current time `now`. */
    method DidDiscover(p: Peripheral, advertisedName: Option<string>, now: int) returns (saved: Option<Event>)
      requires Valid()
      modifies this
      ensures Valid() && manager == old(manager)
      ensures DiscoveredName(p, advertisedName).None? || p.identifier in old(peripherals) ==>
        saved == None && peripherals == old(peripherals)
      ensures DiscoveredName(p, advertisedName).Some? && p.identifier !in old(peripherals) ==>
        && peripherals == old(peripherals) + [p.identifier]
        && saved == Some((now, DeviceFrame(now, DiscoveredName(p, advertisedName).value, p.identifier, StateCode(p.state))))
    {
      var name := DiscoveredName(p, advertisedName);
      if name.None? {
        return None;
      }
      if p.identifier in peripherals {
        return None;
      }
      peripherals := peripherals + [p.identifier];
      saved := Some((now, DeviceFrame(now, name.value, p.identifier, StateCode(p.state))));
    }

    /** `centralManager(_:connectionEventDidOccur:for:)`: every event of a
        named peripheral is reported as connected, whether or not it was
        reported before. */
    method ConnectionEventDidOccur(p: Peripheral, now: int) returns (saved: Option<Event>)
      ensures p.name.None? ==> saved == None
      ensures p.name.Some? ==> saved == Some((now, DeviceFrame(now, p.name.value, p.identifier, ConnectedCode)))
    {
      if p.name.None? {
        return None;
      }
      saved := Some((now, DeviceFrame(now, p.name.value, p.identifier, ConnectedCode)));
    }
  }

  // ---------------------------------------------------------------------
  // Scenarios

  /** A peripheral discovered twice, or under another name with the same
      identifier, is reported once. */
  method DiscoveredOnce(p: Peripheral, q: Peripheral, now: int, later: int)
    returns (first: Option<Event>, second: Option<Event>, reported: seq<string>)
    requires p.name.Some? && q.identifier == p.identifier
    ensures first == Some((now, DeviceFrame(now, p.name.value, p.identifier, StateCode(p.state))))
    ensures second == None && reported == [p.identifier]
  {
    var c := new TrapBluetoothCollector();
    first := c.DidDiscover(p, None, now);
    second := c.DidDiscover(q, Some("Other"), later);
    reported := c.peripherals;
  }

  /** The collector test: a connected peripheral is reported once with
      code 3, a connection event of another peripheral with the same
      identifier is reported too, and stopping stops the scan of the
      manager the test installed, whatever the authorization. */
  method CollectorTest(authorization: Authorization, now: int, later: int)
    returns (identified: Option<Event>, joined: Option<Event>, managerCalls: seq<ManagerCall>, stopped: bool)
    ensures identified == Some((now, Array([Int(108), Int64(now),
      Array([Array([Str("Test Device"), Str("1698DFB1-B8BB-432F-A975-306DD31A29F4"), Int(3)])])])))
    ensures joined == Some((later, Array([Int(108), Int64(later),
      Array([Array([Str("Device Test"), Str("1698DFB1-B8BB-432F-A975-306DD31A29F4"), Int(3)])])])))
    ensures managerCalls == [StoppedScan]
    ensures stopped
  {
    var uuid := "1698DFB1-B8BB-432F-A975-306DD31A29F4";
    var peripheral := Peripheral(Some("Test Device"), uuid, Connected);
    var peripheral2 := Peripheral(Some("Device Test"), uuid, Connected);
    var central := new CentralManager(PoweredOn);
    var c := new TrapBluetoothCollector();
    c.manager := Some(central);
    c.Start(authorization, PoweredOn);
    identified := c.DidDiscover(peripheral, None, now);
    joined := c.ConnectionEventDidOccur(peripheral2, later);
    c.Stop();
    managerCalls := central.calls;
    stopped := c.manager.None?;
  }
}
