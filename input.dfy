/**
 * The input-side collaborators the shells talk to, reduced to the fields the
 * shells read and write: a pointer device (position and grab slot) and a
 * per-device popup grabber (serial, owning client, and the calls made on it).
 */
module Input {
  import opened Common
  import opened Geometry

  /** The record a move grabber is created with: its window and the grab offset. */
  datatype MoveGrab = MoveGrab(surface: SurfaceId, offset: Point)

  /** The fields a resize grabber is filled with when a resize starts. */
  datatype ResizeGrab = ResizeGrab(surface: SurfaceId, pt: Point, edges: uint32, width: int, height: int)

  /** What currently owns a pointer's event stream. */
  datatype Grab = Moving(move: MoveGrab) | Resizing(resize: ResizeGrab)

  class Pointer {
    var position: Point
    var grab: Option<Grab>

    constructor (position: Point)
      ensures this.position == position && grab == None
    {
      this.position := position;
      this.grab := None;
    }

    /** startGrab: the new grab takes the pointer's grab slot (last writer wins). */
    method StartGrab(g: Grab)
      modifies this
      ensures grab == Some(g) && position == old(position)
    {
      grab := Some(g);
    }
  }

  /** A call a shell surface makes on its popup grabber. */
  datatype GrabberCall = AddPopup(surface: SurfaceId) | RemovePopup(surface: SurfaceId)

  datatype GrabberValue = GrabberValue(
    device: DeviceId,
    serial: uint32,
    client: Option<ClientId>,
    calls: seq<GrabberCall>)

  /**
   * A popup grabber of one input device.  Its serial and owning client are set
   * by the grabber's own logic when a popup chain starts, which is not part of
   * this model; the shells read the serial, clear the client and call
   * addPopup/removePopup, recorded in `calls`.
   */
  class PopupGrabber {
    const device: DeviceId
    var serial: uint32
    var client: Option<ClientId>
    var calls: seq<GrabberCall>

    function Value(): GrabberValue
      reads this
    {
      GrabberValue(device, serial, client, calls)
    }

    constructor (device: DeviceId)
      ensures Value() == GrabberValue(device, 0, None, [])
    {
      this.device := device;
      this.serial := 0;
      this.client := None;
      this.calls := [];
    }
  }
}
