/**
 * The wl_shell_surface role object: fields updated in place by the request
 * handlers, each proved to follow its value-level counterpart in WlShellSpec.
 */
module WlShellSurfaces {
  import opened Common
  import opened Geometry
  import opened QuickSurfaces
  import opened Input
  import S = WlShellSpec

  class WlShellSurface {
    const surface: QuickSurface
    /** The output of the view the constructor creates on the first output. */
    const mainOutput: S.Output
    var moveGrabber: Option<MoveGrab>
    var resizeGrabber: Option<ResizeGrab>
    var popupGrabber: PopupGrabber?
    var popupSerial: uint32
    var state: State
    var prevState: State
    var prevGlobalGeometry: Rect
    var pings: set<uint32>
    var deleting: bool
    var events: seq<S.Event>

    /** The role, its popup grabber and its surface as one value. */
    ghost function Model(): S.Window
      reads this, surface, popupGrabber
    {
      var g := if popupGrabber == null then None else Some(popupGrabber.Value());
      S.Window(S.Role(state, prevState, prevGlobalGeometry, moveGrabber, resizeGrabber, g, popupSerial,
                      pings, deleting, events),
               surface.Value())
    }

    constructor (surface: QuickSurface, mainOutput: S.Output)
      ensures this.surface == surface && this.mainOutput == mainOutput
      ensures Model() == S.Initial(surface.Value())
    {
      this.surface := surface;
      this.mainOutput := mainOutput;
      moveGrabber := None;
      resizeGrabber := None;
      popupGrabber := null;
      popupSerial := 0;
      state := Normal;
      prevState := Normal;
      prevGlobalGeometry := Rect(Point(0, 0), Size(0, 0));
      pings := {};
      deleting := false;
      events := [];
    }

    /** The output named by a request, or the view's main output when none is named. */
    function OutputFor(output: Option<S.Output>): S.Output
    {
      if output.Some? then output.value else mainOutput
    }

    method Emit(e: S.Event)
      modifies this`events
      ensures Model() == S.Emit(old(Model()), e)
    {
      events := events + [e];
    }

    method Restore()
      modifies this, surface
      ensures Model() == S.Restore(old(Model()))
    {
      if state == Normal {
        return;
      }
      prevState := state;
      state := Normal;
      surface.SetGlobalPosition(prevGlobalGeometry.origin);
      surface.SetState(state);
      RequestResize(prevGlobalGeometry.size);
    }

    /** runOperation; a move uses the pointer of the compositor's default input device. */
    method RunOperation(op: S.SurfaceOp, pointer: Pointer) returns (handled: bool)
      modifies this, pointer
      ensures (Model(), handled) == S.RunOperation(old(Model()), op, old(pointer.position))
      ensures pointer.position == old(pointer.position)
      ensures pointer.grab ==
        if op.MoveOp? && S.CanMove(old(Model())) then Some(Moving(moveGrabber.value)) else old(pointer.grab)
    {
      match op
      case PingOp(serial) =>
        Ping(serial);
        return true;
      case ResizeOp(size) =>
        RequestResize(size);
        return true;
      case MoveOp =>
        MoveWindow(pointer);
        return true;
      case OtherOp =>
        return false;
    }

    method Ping(serial: uint32)
      modifies this
      ensures Model() == S.Ping(old(Model()), serial)
    {
      pings := pings + {serial};
      Emit(S.SendPing(serial));
    }

    method MoveWindow(pointer: Pointer)
      modifies this, pointer
      ensures Model() == S.MoveWindow(old(Model()), old(pointer.position))
      ensures pointer.position == old(pointer.position)
      ensures pointer.grab == if S.CanMove(old(Model())) then Some(Moving(moveGrabber.value)) else old(pointer.grab)
    {
      if moveGrabber.Some? || resizeGrabber.Some? {
        Emit(S.Warned(S.MoveRefused));
        return;
      }
      if state == FullScreen {
        return;
      }
      moveGrabber := Some(MoveGrab(surface.id, Sub(pointer.position, surface.globalPos)));
      pointer.StartGrab(Moving(moveGrabber.value));
    }

    method RequestResize(size: Size)
      modifies this`events
      ensures Model() == S.RequestResize(old(Model()), size)
    {
      Emit(S.SendConfigure(S.ResizeBottomRight, size.width, size.height));
    }

    method DestroyResource()
      modifies this, popupGrabber
      ensures Model() == S.DestroyResource(old(Model()))
    {
      if popupGrabber != null {
        Emit(S.SendPopupDone);
        popupGrabber.calls := popupGrabber.calls + [RemovePopup(surface.id)];
        popupGrabber.client := None;
      }
      if !deleting {
        deleting := true;
        Emit(S.ObjectDeleted);
      }
    }

    /** The destructor. */
    method Destroy()
      modifies this, popupGrabber
      ensures Model() == S.Destructor(old(Model()))
    {
      if !deleting {
        deleting := true;
        Emit(S.ResourceDestroyed);
        DestroyResource();
      }
    }

    method Pong(serial: uint32)
      modifies this, surface
      ensures Model() == S.Pong(old(Model()), serial)
    {
      if serial in pings {
        pings := pings - {serial};
        surface.signals := surface.signals + [Signal.Pong];
      } else {
        Emit(S.Warned(S.UnexpectedPong(serial)));
      }
    }

    /** shell_surface_move: a move with the pointer of the requesting seat; the serial is ignored. */
    method Move(pointer: Pointer, serial: uint32)
      modifies this, pointer
      ensures Model() == S.MoveWindow(old(Model()), old(pointer.position))
      ensures pointer.position == old(pointer.position)
      ensures pointer.grab == if S.CanMove(old(Model())) then Some(Moving(moveGrabber.value)) else old(pointer.grab)
    {
      MoveWindow(pointer);
    }

    /** shell_surface_resize with the pointer of the requesting seat; the serial is ignored. */
    method Resize(pointer: Pointer, serial: uint32, edges: uint32)
      modifies this, pointer
      ensures Model() == S.Resize(old(Model()), old(pointer.position), edges)
      ensures pointer.position == old(pointer.position)
      ensures pointer.grab ==
        if S.CanResize(old(Model())) then Some(Resizing(resizeGrabber.value)) else old(pointer.grab)
    {
      if moveGrabber.Some? || resizeGrabber.Some? {
        Emit(S.Warned(S.ResizeRefused));
        return;
      }
      if state == Maximized || state == FullScreen {
        return;
      }
      resizeGrabber := Some(ResizeGrab(surface.id, pointer.position, edges, surface.size.width, surface.size.height));
      pointer.StartGrab(Resizing(resizeGrabber.value));
    }

    method SetToplevel()
      modifies this, surface
      ensures Model() == S.SetToplevel(old(Model()))
    {
      ghost var w := Model();
      surface.transientParent := None;
      surface.transientOffset := Point(0, 0);
      surface.windowType := Toplevel;
      assert Model() == w.(surface := w.surface.(transientParent := None, transientOffset := Point(0, 0),
                                                 windowType := Toplevel));
      if state == Maximized || state == FullScreen {
        prevState := state;
        state := Normal;
        surface.SetGlobalPosition(prevGlobalGeometry.origin);
        RequestResize(prevGlobalGeometry.size);
        surface.SetState(state);
      }
    }

    method SetTransient(parent: SurfaceId, x: int, y: int, flags: uint32)
      modifies surface
      ensures Model() == S.SetTransient(old(Model()), parent, x, y, flags)
    {
      surface.transientParent := Some(parent);
      surface.transientOffset := Point(x, y);
      if S.TransientInactive(flags) {
        surface.transientInactive := true;
      }
      surface.windowType := Transient;
    }

    /** shell_surface_set_fullscreen; the method and framerate are accepted and ignored. */
    method SetFullscreen(fullscreenMethod: uint32, framerate: uint32, output: Option<S.Output>)
      modifies this, surface
      ensures Model() == S.SetFullscreen(old(Model()), OutputFor(output))
    {
      prevGlobalGeometry := surface.GlobalGeometry();
      var out := OutputFor(output);
      Emit(S.SendConfigure(S.ResizeBottomRight, out.geometry.size.width, out.geometry.size.height));
      surface.SetGlobalPosition(out.geometry.origin);
      RequestResize(out.geometry.size);
      prevState := state;
      state := FullScreen;
      surface.SetState(state);
    }

    /** shell_surface_set_popup; `grabber` is the wl_shell's popup grabber for the requesting device. */
    method SetPopup(grabber: PopupGrabber, serial: uint32, parent: SurfaceId, x: int, y: int)
      modifies this, surface
      ensures popupGrabber == grabber
      ensures Model() == S.SetPopup(old(Model()), grabber.Value(), serial, parent, x, y)
    {
      popupGrabber := grabber;
      popupSerial := serial;
      surface.transientParent := Some(parent);
      surface.transientOffset := Point(x, y);
      surface.windowType := Popup;
    }

    method SetMaximized(output: Option<S.Output>)
      modifies this, surface
      ensures Model() == S.SetMaximized(old(Model()), OutputFor(output))
    {
      var out := OutputFor(output);
      if IsValid(surface.GlobalGeometry()) {
        prevGlobalGeometry := surface.GlobalGeometry();
      } else {
        prevGlobalGeometry := out.availableGeometry;
      }
      surface.SetGlobalPosition(out.availableGeometry.origin);
      RequestResize(out.availableGeometry.size);
      prevState := state;
      state := Maximized;
      surface.SetState(state);
    }

    method SetTitle(title: string)
      modifies surface
      ensures Model() == S.SetTitle(old(Model()), title)
    {
      surface.title := title;
    }

    method SetClass(className: string)
      modifies surface
      ensures Model() == S.SetClass(old(Model()), className)
    {
      surface.className := className;
    }

    /** The handler connected to the surface's mapped signal. */
    method OnMapped()
      requires surface.windowType == Popup ==> popupGrabber != null
      modifies this, popupGrabber
      ensures Model() == S.OnMapped(old(Model()))
    {
      if surface.windowType != Popup {
        return;
      }
      if popupGrabber.serial == popupSerial {
        popupGrabber.calls := popupGrabber.calls + [AddPopup(surface.id)];
      } else {
        Emit(S.SendPopupDone);
        popupGrabber.client := None;
      }
    }

    /** The handler connected to the surface's unmapped signal. */
    method OnUnmapped()
      requires surface.windowType == Popup ==> popupGrabber != null
      modifies this, popupGrabber
      ensures Model() == S.OnUnmapped(old(Model()))
    {
      if surface.windowType == Popup {
        Emit(S.SendPopupDone);
        popupGrabber.calls := popupGrabber.calls + [RemovePopup(surface.id)];
        popupGrabber.client := None;
      }
    }
  }
}
