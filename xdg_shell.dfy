/**
 * The role objects the xdg_shell global creates: plain records of what they
 * are constructed with.  Their own request handlers are not part of this model.
 */
module XdgRoles {
  import opened Common
  import opened QuickSurfaces
  import opened Input

  class XdgSurface {
    const surface: QuickSurface
    const client: ClientId
    const id: uint32

    constructor (surface: QuickSurface, client: ClientId, id: uint32)
      ensures this.surface == surface && this.client == client && this.id == id
    {
      this.surface := surface;
      this.client := client;
      this.id := id;
    }
  }

  class XdgPopup {
    const parent: QuickSurface
    const surface: QuickSurface
    const client: ClientId
    const id: uint32
    const serial: uint32
    var grabber: PopupGrabber?

    constructor (parent: QuickSurface, surface: QuickSurface, client: ClientId, id: uint32, serial: uint32)
      ensures this.parent == parent && this.surface == surface && this.client == client
      ensures this.id == id && this.serial == serial && grabber == null
    {
      this.parent := parent;
      this.surface := surface;
      this.client := client;
      this.id := id;
      this.serial := serial;
      this.grabber := null;
    }
  }
}

/**
 * Value-level specification of the xdg_shell registry: the map from ping
 * serial to surface, the per-device popup grabber cache, the pings sent and
 * the protocol errors posted.
 */
module XdgShellSpec {
  import opened Common
  import opened Input
  import opened XdgRoles

  /** Code invalid_object of enum wl_display.error. */
  const DisplayErrorInvalidObject: int := 0

  datatype ProtocolError = ProtocolError(code: int, serverVersion: int, clientVersion: int)

  datatype ShellValue = ShellValue(
    pings: map<uint32, XdgSurface>,
    popupGrabbers: map<DeviceId, PopupGrabber>,
    sentPings: seq<uint32>,
    errors: seq<ProtocolError>)

  /** The registry as its (empty) constructor leaves it. */
  function Empty(): (v: ShellValue)
    ensures v.pings == map[] && v.popupGrabbers == map[] && v.sentPings == [] && v.errors == []
  {
    ShellValue(map[], map[], [], [])
  }

  /** pingSurface: the surface's next serial maps to the surface and a ping with it is sent. */
  function PingSurface(v: ShellValue, surface: XdgSurface, serial: uint32): (r: ShellValue)
    ensures serial in r.pings && r.pings[serial] == surface
    ensures r.pings.Keys == v.pings.Keys + {serial}
    ensures forall s :: s in v.pings && s != serial ==> r.pings[s] == v.pings[s]
    ensures r.sentPings == v.sentPings + [serial]
    ensures r.popupGrabbers == v.popupGrabbers && r.errors == v.errors
  {
    v.(pings := v.pings[serial := surface], sentPings := v.sentPings + [serial])
  }

  /**
   * popupGrabberForDevice: the cached grabber of a known device, with the
   * cache unchanged; for a new device, `created` is inserted and returned.
   */
  function PopupGrabberFor(v: ShellValue, device: DeviceId, created: PopupGrabber): (r: (ShellValue, PopupGrabber))
    ensures device in r.0.popupGrabbers && r.0.popupGrabbers[device] == r.1
    ensures device in v.popupGrabbers ==> r.0 == v && r.1 == v.popupGrabbers[device]
    ensures device !in v.popupGrabbers ==> r.1 == created && r.0.popupGrabbers.Keys == v.popupGrabbers.Keys + {device}
    ensures forall d :: d in v.popupGrabbers ==> d in r.0.popupGrabbers && r.0.popupGrabbers[d] == v.popupGrabbers[d]
    ensures r.0.(popupGrabbers := v.popupGrabbers) == v
  {
    var v1 := if device !in v.popupGrabbers then v.(popupGrabbers := v.popupGrabbers[device := created]) else v;
    (v1, v1.popupGrabbers[device])
  }

  /** shell_use_unstable_version: an invalid_object error exactly when the version differs; nothing else changes. */
  function UseUnstableVersion(v: ShellValue, version: int, current: int): (r: ShellValue)
    ensures version == current ==> r == v
    ensures version != current ==>
      r.errors == v.errors + [ProtocolError(DisplayErrorInvalidObject, current, version)]
    ensures r.(errors := v.errors) == v
  {
    if version != current then v.(errors := v.errors + [ProtocolError(DisplayErrorInvalidObject, current, version)])
    else v
  }

  /** shell_pong: the serial's entry is taken out of the map; an unknown serial changes nothing. */
  function Pong(v: ShellValue, serial: uint32): (r: ShellValue)
    ensures serial !in r.pings
    ensures r.pings.Keys == v.pings.Keys - {serial}
    ensures forall s :: s in r.pings ==> r.pings[s] == v.pings[s]
    ensures serial !in v.pings ==> r == v
    ensures r.(pings := v.pings) == v
  {
    v.(pings := v.pings - {serial})
  }

  /** Answering a ping removes exactly what the ping added. */
  lemma PingThenPong(v: ShellValue, surface: XdgSurface, serial: uint32)
    ensures Pong(PingSurface(v, surface, serial), serial).pings == v.pings - {serial}
  {
  }

  /** A second lookup for the same device returns the same grabber and leaves the cache as it was. */
  lemma GrabberLookupIdempotent(v: ShellValue, device: DeviceId, created: PopupGrabber, other: PopupGrabber)
    ensures var (v1, g1) := PopupGrabberFor(v, device, created);
      PopupGrabberFor(v1, device, other) == (v1, g1)
  {
  }

  /** The requests that change the registry; a popup request looks its device's grabber up. */
  datatype Request =
    | PingSurfaceRequest(surface: XdgSurface, serial: uint32)
    | GrabberRequest(device: DeviceId, created: PopupGrabber)
    | VersionRequest(version: int)
    | PongRequest(serial: uint32)

  function Step(v: ShellValue, req: Request, current: int): ShellValue
  {
    match req
    case PingSurfaceRequest(surface, serial) => PingSurface(v, surface, serial)
    case GrabberRequest(device, created) => PopupGrabberFor(v, device, created).0
    case VersionRequest(version) => UseUnstableVersion(v, version, current)
    case PongRequest(serial) => Pong(v, serial)
  }

  function Run(v: ShellValue, reqs: seq<Request>, current: int): ShellValue
    decreases |reqs|
  {
    if reqs == [] then v else Run(Step(v, reqs[0], current), reqs[1..], current)
  }

  /** The grabber cache never shrinks and a cached grabber is never replaced, whatever the requests. */
  lemma {:induction false} RunKeepsGrabbers(v: ShellValue, reqs: seq<Request>, current: int)
    ensures forall d :: d in v.popupGrabbers ==>
      d in Run(v, reqs, current).popupGrabbers && Run(v, reqs, current).popupGrabbers[d] == v.popupGrabbers[d]
    decreases |reqs|
  {
    if reqs != [] {
      RunKeepsGrabbers(Step(v, reqs[0], current), reqs[1..], current);
    }
  }

  /** Every cached grabber belongs to the device it is cached under. */
  ghost predicate GrabbersMatchDevices(v: ShellValue)
  {
    forall d :: d in v.popupGrabbers ==> v.popupGrabbers[d].device == d
  }

  /** When each grabber is created for its own device, the cache stays keyed by device. */
  lemma {:induction false} RunKeepsDevices(v: ShellValue, reqs: seq<Request>, current: int)
    requires GrabbersMatchDevices(v)
    requires forall i :: 0 <= i < |reqs| && reqs[i].GrabberRequest? ==> reqs[i].created.device == reqs[i].device
    ensures GrabbersMatchDevices(Run(v, reqs, current))
    decreases |reqs|
  {
    if reqs != [] {
      assert forall i :: 0 <= i < |reqs[1..]| ==> reqs[1..][i] == reqs[i + 1];
      RunKeepsDevices(Step(v, reqs[0], current), reqs[1..], current);
    }
  }
}

/** The xdg_shell global: the registry state held as fields, following XdgShellSpec. */
module XdgShells {
  import opened Common
  import opened Geometry
  import opened QuickSurfaces
  import opened Input
  import opened XdgRoles
  import S = XdgShellSpec

  class XdgShell {
    /** version_current of the xdg_shell interface the server was generated from. */
    const versionCurrent: int
    var pings: map<uint32, XdgSurface>
    var popupGrabbers: map<DeviceId, PopupGrabber>
    var sentPings: seq<uint32>
    var errors: seq<S.ProtocolError>

    function Value(): S.ShellValue
      reads this
    {
      S.ShellValue(pings, popupGrabbers, sentPings, errors)
    }

    ghost predicate Valid()
      reads this
    {
      S.GrabbersMatchDevices(Value())
    }

    constructor (versionCurrent: int)
      ensures this.versionCurrent == versionCurrent
      ensures Value() == S.Empty() && Valid()
    {
      this.versionCurrent := versionCurrent;
      pings := map[];
      popupGrabbers := map[];
      sentPings := [];
      errors := [];
    }

    /** pingSurface; `serial` is the one the surface hands out next. */
    method PingSurface(surface: XdgSurface, serial: uint32)
      requires Valid()
      modifies this
      ensures Valid()
      ensures Value() == S.PingSurface(old(Value()), surface, serial)
    {
      pings := pings[serial := surface];
      sentPings := sentPings + [serial];
    }

    method PopupGrabberForDevice(device: DeviceId) returns (g: PopupGrabber)
      requires Valid()
      modifies this
      ensures Valid()
      ensures (Value(), g) == S.PopupGrabberFor(old(Value()), device, g)
      ensures old(device in popupGrabbers) ==> g == old(popupGrabbers[device])
      ensures old(device !in popupGrabbers) ==> fresh(g) && g.Value() == GrabberValue(device, 0, None, [])
    {
      if device !in popupGrabbers {
        var created := new PopupGrabber(device);
        popupGrabbers := popupGrabbers[device := created];
      }
      g := popupGrabbers[device];
    }

    method UseUnstableVersion(version: int)
      requires Valid()
      modifies this
      ensures Valid()
      ensures Value() == S.UseUnstableVersion(old(Value()), version, versionCurrent)
    {
      if version != versionCurrent {
        errors := errors + [S.ProtocolError(S.DisplayErrorInvalidObject, versionCurrent, version)];
      }
    }

    /**
     * shell_get_xdg_surface; `quickSurface` is the surface as a QuickSurface,
     * null when it is some other kind of surface, in which case nothing is created.
     */
    method GetXdgSurface(client: ClientId, id: uint32, quickSurface: QuickSurface?) returns (created: XdgSurface?)
      ensures created == null <==> quickSurface == null
      ensures created != null ==>
        fresh(created) && created.surface == quickSurface && created.client == client && created.id == id
    {
      if quickSurface == null {
        return null;
      }
      created := new XdgSurface(quickSurface, client, id);
    }

    /**
     * shell_get_xdg_popup: the surface gets the parent and the offset, and the
     * new popup carries the serial and the device's cached grabber.
     */
    method GetXdgPopup(client: ClientId, id: uint32, surface: QuickSurface, parent: QuickSurface,
                       device: DeviceId, serial: uint32, x: int, y: int, flags: uint32)
      returns (popup: XdgPopup)
      requires Valid()
      modifies this, surface
      ensures Valid()
      ensures surface.Value() ==
        old(surface.Value()).(transientParent := Some(parent.id), transientOffset := Point(x, y))
      ensures fresh(popup) && popup.parent == parent && popup.surface == surface
      ensures popup.client == client && popup.id == id && popup.serial == serial
      ensures popup.grabber != null && popup.grabber.device == device
      ensures (Value(), popup.grabber) == S.PopupGrabberFor(old(Value()), device, popup.grabber)
    {
      surface.transientParent := Some(parent.id);
      surface.transientOffset := Point(x, y);
      var grabber := PopupGrabberForDevice(device);
      popup := new XdgPopup(parent, surface, client, id, serial);
      popup.grabber := grabber;
    }

    /** shell_pong: takes the serial's surface out of the map (null when there is none). */
    method Pong(serial: uint32) returns (taken: XdgSurface?)
      requires Valid()
      modifies this
      ensures Valid()
      ensures Value() == S.Pong(old(Value()), serial)
      ensures taken == if serial in old(pings) then old(pings[serial]) else null
    {
      taken := if serial in pings then pings[serial] else null;
      pings := pings - {serial};
    }
  }
}
