# Green Island shell surfaces in Dafny

A model of the shell-surface layer of the Green Island Wayland compositor:

- the per-window `wl_shell_surface` role (interface wl_shell_surface of the
  Wayland core protocol): window state `Normal`/`Maximized`/`FullScreen`, the
  previous state and the saved global geometry, the move and resize grabber
  slots, the pending ping serials, popup admission by serial, and the guarded
  teardown;
- the `xdg_shell` registry: the map from ping serial to surface, the
  per-device popup grabber cache created on demand, and the version check;
- the `QuickSurface` geometry holder the roles write to: state and global
  position behind equality guards that emit change notifications, and the
  global geometry derived from position and size.

Each imperative component has two halves. A value-level specification
(`QuickSurfaces` functions, `WlShellSpec`, `XdgShellSpec`) gives every handler
as a function from the state before to the state after, and the lemmas about
those functions state the properties: restore round trips, grab exclusivity
over any request sequence, ping/pong bookkeeping, popup admission, teardown
running once, the grabber cache never shrinking. The classes
(`QuickSurfaces.QuickSurface`, `WlShellSurfaces.WlShellSurface`,
`XdgShells.XdgShell`) hold the same data as fields that their methods update
in place, and each method is proved to leave the object in the state that
its specification function computes.

Coordinates are integers and a rectangle is valid when its width and height
are positive. Protocol events sent by a role (`configure`, `ping`,
`popup_done`), its warnings and its teardown calls are appended to the role's
event log, and the surface's change notifications are appended to the
surface's signal log. A surface's buffer size belongs to the commit pipeline.
So maximize, full screen and restore move the surface and *ask* the client for
a size with a `configure` event, and the round-trip lemmas say exactly that.
The only constants used come from wayland.xml: `resize` entry `bottom_right` =
10, `transient` bit `inactive` = 0x1, and `wl_display` error `invalid_object`
= 0.

Files: `common.dfy` (modules `Common`, `Geometry`), `quick_surface.dfy`,
`input.dfy` (pointer and popup grabber records), `wl_shell_spec.dfy`,
`wl_shell_surface.dfy`, `xdg_shell.dfy` (modules `XdgRoles`, `XdgShellSpec`,
`XdgShells`).

Behaviour the model keeps as the code has it, although a reader might expect otherwise:

- The saved geometry is not cleared on return to Normal.
- A second `set_maximized` is not idempotent. It saves the maximized geometry
  over the first one (`WlShellSpec.MaximizeTwiceSavesMaximized`).
- `ping` receives its serial from the caller and does not allocate one.
- A popup is admitted by comparing its serial with the grabber's serial. No
  "conflicting client" test is made.

## Model

| member | source | states |
|---|---|---|
| QuickSurfaces.Fresh | src/libgreenisland/quicksurface.cpp:34-39 | a new surface is Normal at (0,0) with no signals emitted |
| QuickSurfaces.WithState | src/libgreenisland/quicksurface.cpp:41-53 | state reads back as the value stored; same value: nothing changes; different value: exactly one stateChanged; no other field changes |
| QuickSurfaces.WithGlobalPosition | src/libgreenisland/quicksurface.cpp:55-68 | position reads back as stored and the global geometry moves with it; same position: nothing changes; otherwise globalPositionChanged then globalGeometryChanged |
| QuickSurfaces.GeometryOf | src/libgreenisland/quicksurface.cpp:70-73 | the global geometry's top-left is the global position and its size the surface size; valid exactly when the size is positive |
| QuickSurfaces.WithStateIdempotent | src/libgreenisland/quicksurface.cpp:46-53 | storing the same state twice is the same as once |
| QuickSurfaces.WithGlobalPositionIdempotent | src/libgreenisland/quicksurface.cpp:60-68 | storing the same position twice is the same as once |
| QuickSurfaces.WithStatesSignals | src/libgreenisland/quicksurface.cpp:41-53 | over any sequence of setState calls, stateChanged is emitted once per real change and the last stored state is read back |
| QuickSurfaces.QuickSurface.constructor | src/libgreenisland/quicksurface.cpp:34-39 | the object starts as `Fresh` |
| QuickSurfaces.QuickSurface.SetState | src/libgreenisland/quicksurface.cpp:46-53 | the fields become `WithState` of the old fields |
| QuickSurfaces.QuickSurface.SetGlobalPosition | src/libgreenisland/quicksurface.cpp:60-68 | the fields become `WithGlobalPosition` of the old fields |
| QuickSurfaces.QuickSurface.GlobalGeometry | src/libgreenisland/quicksurface.cpp:70-73 | the object's global geometry is `GeometryOf` its value |
| Input.Pointer.StartGrab | src/libgreenisland/protocols/wl-shell/wlshellsurface.cpp:219-222 | the new grab takes the pointer's grab slot; the position is unchanged |
| Input.PopupGrabber.constructor | src/libgreenisland/protocols/xdg-shell/xdgshell.cpp:69-70 | a grabber created for a device belongs to that device, with no client and no calls yet |
| WlShellSpec.Initial | src/libgreenisland/protocols/wl-shell/wlshellsurface.cpp:53-61 | a new role is Normal (previous state Normal), with no grabbers, no pending pings, not tearing down, nothing sent |
| WlShellSpec.RequestResize | src/libgreenisland/protocols/wl-shell/wlshellsurface.cpp:225-228 | exactly one bottom-right configure with the size is sent; nothing else changes |
| WlShellSpec.Ping | src/libgreenisland/protocols/wl-shell/wlshellsurface.cpp:199-203 | the serial joins the pending set and a ping with it is sent |
| WlShellSpec.Pong | src/libgreenisland/protocols/wl-shell/wlshellsurface.cpp:248-256 | the serial leaves the pending set; pong is signalled only if it was pending, otherwise only a warning is logged |
| WlShellSpec.MoveWindow | src/libgreenisland/protocols/wl-shell/wlshellsurface.cpp:205-223 | with a grabber present (warning) or in FullScreen nothing changes; otherwise the move grabber's offset is pointer position minus global position; the surface is never touched |
| WlShellSpec.Resize | src/libgreenisland/protocols/wl-shell/wlshellsurface.cpp:267-293 | with a grabber present (warning) or in Maximized/FullScreen nothing changes; otherwise the resize grabber records pointer position, edges, width and height |
| WlShellSpec.Restore | src/libgreenisland/protocols/wl-shell/wlshellsurface.cpp:164-178 | nothing in Normal; otherwise Normal (previous state the old one) at the saved top-left with a configure for the saved size |
| WlShellSpec.SetToplevel | src/libgreenisland/protocols/wl-shell/wlshellsurface.cpp:295-312 | the transient parent and offset are always cleared and the type is Toplevel; only from Maximized/FullScreen does the window go back to Normal at the saved top-left with a configure for the saved size |
| WlShellSpec.SetTransient | src/libgreenisland/protocols/wl-shell/wlshellsurface.cpp:314-327 | parent and offset stored, inactive set when flag 0x1 is given, type Transient; the role is untouched |
| WlShellSpec.SetFullscreen | src/libgreenisland/protocols/wl-shell/wlshellsurface.cpp:329-358 | the current geometry is saved unconditionally; the surface moves to the output's top-left; two configures ask for the output size; state FullScreen with the old state as previous |
| WlShellSpec.SetPopup | src/libgreenisland/protocols/wl-shell/wlshellsurface.cpp:360-376 | grabber and serial recorded, parent and offset stored, type Popup; nothing else changes |
| WlShellSpec.SetMaximized | src/libgreenisland/protocols/wl-shell/wlshellsurface.cpp:378-403 | saves the current geometry if valid and the available geometry otherwise; moves to the available top-left; one configure for the available size; state Maximized with the old state as previous |
| WlShellSpec.SetTitle | src/libgreenisland/protocols/wl-shell/wlshellsurface.cpp:405-410 | only the title changes |
| WlShellSpec.SetClass | src/libgreenisland/protocols/wl-shell/wlshellsurface.cpp:412-417 | only the class name changes |
| WlShellSpec.OnMapped | src/libgreenisland/protocols/wl-shell/wlshellsurface.cpp:72-82 | non-popups: nothing; a popup whose serial equals the grabber's is added to it; any other popup gets popup_done, the grabber's client is cleared and nothing is added |
| WlShellSpec.OnUnmapped | src/libgreenisland/protocols/wl-shell/wlshellsurface.cpp:83-89 | a popup gets popup_done, is removed from its grabber and the client is cleared; others: nothing |
| WlShellSpec.DestroyResource | src/libgreenisland/protocols/wl-shell/wlshellsurface.cpp:230-246 | the popup is closed when a grabber is set; the object is deleted only when teardown was not already under way; afterwards teardown is marked |
| WlShellSpec.Destructor | src/libgreenisland/protocols/wl-shell/wlshellsurface.cpp:92-101 | a no-op once teardown is marked; otherwise the resource is destroyed once and the object is not deleted a second time |
| WlShellSpec.RunOperation | src/libgreenisland/protocols/wl-shell/wlshellsurface.cpp:180-197 | ping, resize and move operations are dispatched to their handlers and reported handled; any other is declined with nothing changed |
| WlShellSpec.InitialInv | src/libgreenisland/protocols/wl-shell/wlshellsurface.cpp:55-61 | a new role on a Normal, non-popup surface satisfies the role invariant |
| WlShellSpec.Step | src/libgreenisland/protocols/wl-shell/wlshellsurface.cpp:199-417 | every request and map/unmap event preserves the invariant: never both grabbers, a popup always has its grabber, the surface shows the role's state |
| WlShellSpec.Run | src/libgreenisland/protocols/wl-shell/wlshellsurface.cpp:205-293 | after any sequence of requests the invariant still holds, so a role never holds a move and a resize grabber at once |
| WlShellSpec.StepLogAndPings | src/libgreenisland/protocols/wl-shell/wlshellsurface.cpp:199-256 | a single request only appends to the log, and only a ping adds a pending serial |
| WlShellSpec.RunPendingPings | src/libgreenisland/protocols/wl-shell/wlshellsurface.cpp:199-256 | after any sequence of requests every pending serial was pending before or was pinged since |
| WlShellSpec.RunExtendsLog | src/libgreenisland/protocols/wl-shell/wlshellsurface.cpp:199-417 | after any sequence of requests the earlier log is a prefix of the new one |
| WlShellSpec.MaximizeThenToplevel | src/libgreenisland/protocols/wl-shell/wlshellsurface.cpp:295-403 | maximize with valid geometry G then toplevel: global geometry G again, last configure asks for G's size, state Normal |
| WlShellSpec.MaximizeInvalidThenToplevel | src/libgreenisland/protocols/wl-shell/wlshellsurface.cpp:389-397 | maximize without a valid geometry then toplevel: the window stays at the available top-left and is asked for the available size |
| WlShellSpec.MaximizeTwiceSavesMaximized | src/libgreenisland/protocols/wl-shell/wlshellsurface.cpp:389-396 | after two maximizes, toplevel returns to the maximized position, not the original one |
| WlShellSpec.FullscreenThenToplevel | src/libgreenisland/protocols/wl-shell/wlshellsurface.cpp:295-358 | full screen then toplevel restores the previous global geometry, asks for its size, state Normal with previous state FullScreen |
| WlShellSpec.ExpandThenRestore | src/libgreenisland/protocols/wl-shell/wlshellsurface.cpp:164-178 | restore after maximize (valid geometry) or full screen gives back the previous global geometry and Normal |
| WlShellSpec.GrabsExclude | src/libgreenisland/protocols/wl-shell/wlshellsurface.cpp:205-293 | after a move has started a resize only warns, and after a resize has started a move only warns |
| WlShellSpec.PingThenPong | src/libgreenisland/protocols/wl-shell/wlshellsurface.cpp:199-256 | ping(s) then pong(s) leaves the pending set without s; a second pong(s) only warns |
| WlShellSpec.TeardownOnce | src/libgreenisland/protocols/wl-shell/wlshellsurface.cpp:92-246 | whichever teardown path runs first, the object is deleted at most once and the resource destroyed at most once; the destructor after destroy_resource does nothing |
| WlShellSpec.MaximizeScenario | src/libgreenisland/protocols/wl-shell/wlshellsurface.cpp:378-403 | the 1920x1080 / (100,100,400,300) maximize-then-toplevel scenario, event by event |
| WlShellSurfaces.WlShellSurface.constructor | src/libgreenisland/protocols/wl-shell/wlshellsurface.cpp:45-65 | the object starts as `WlShellSpec.Initial` of its surface, with the first output as main output |
| WlShellSurfaces.WlShellSurface.Restore | src/libgreenisland/protocols/wl-shell/wlshellsurface.cpp:164-178 | the fields become `WlShellSpec.Restore` of the old fields |
| WlShellSurfaces.WlShellSurface.RunOperation | src/libgreenisland/protocols/wl-shell/wlshellsurface.cpp:180-197 | result and new fields are `WlShellSpec.RunOperation`; a successful move takes the pointer's grab slot |
| WlShellSurfaces.WlShellSurface.Ping | src/libgreenisland/protocols/wl-shell/wlshellsurface.cpp:199-203 | the fields become `WlShellSpec.Ping` of the old fields |
| WlShellSurfaces.WlShellSurface.MoveWindow | src/libgreenisland/protocols/wl-shell/wlshellsurface.cpp:205-223 | the fields become `WlShellSpec.MoveWindow`; the pointer's grab slot takes the new move grabber exactly when the move is allowed |
| WlShellSurfaces.WlShellSurface.RequestResize | src/libgreenisland/protocols/wl-shell/wlshellsurface.cpp:225-228 | only the event log changes, as `WlShellSpec.RequestResize` |
| WlShellSurfaces.WlShellSurface.DestroyResource | src/libgreenisland/protocols/wl-shell/wlshellsurface.cpp:230-246 | role and grabber become `WlShellSpec.DestroyResource` of the old ones |
| WlShellSurfaces.WlShellSurface.Destroy | src/libgreenisland/protocols/wl-shell/wlshellsurface.cpp:92-101 | role and grabber become `WlShellSpec.Destructor` of the old ones |
| WlShellSurfaces.WlShellSurface.Pong | src/libgreenisland/protocols/wl-shell/wlshellsurface.cpp:248-256 | role and surface become `WlShellSpec.Pong` of the old ones |
| WlShellSurfaces.WlShellSurface.Move | src/libgreenisland/protocols/wl-shell/wlshellsurface.cpp:258-265 | the requesting seat's pointer is used for `MoveWindow`; the serial is ignored |
| WlShellSurfaces.WlShellSurface.Resize | src/libgreenisland/protocols/wl-shell/wlshellsurface.cpp:267-293 | the fields become `WlShellSpec.Resize`; the pointer's grab slot takes the new resize grabber exactly when the resize is allowed |
| WlShellSurfaces.WlShellSurface.SetToplevel | src/libgreenisland/protocols/wl-shell/wlshellsurface.cpp:295-312 | role and surface become `WlShellSpec.SetToplevel` of the old ones |
| WlShellSurfaces.WlShellSurface.SetTransient | src/libgreenisland/protocols/wl-shell/wlshellsurface.cpp:314-327 | the surface becomes `WlShellSpec.SetTransient` of the old one |
| WlShellSurfaces.WlShellSurface.SetFullscreen | src/libgreenisland/protocols/wl-shell/wlshellsurface.cpp:329-358 | role and surface become `WlShellSpec.SetFullscreen` for the named output, or the main output when none is named |
| WlShellSurfaces.WlShellSurface.SetPopup | src/libgreenisland/protocols/wl-shell/wlshellsurface.cpp:360-376 | the role keeps the given grabber; role and surface become `WlShellSpec.SetPopup` |
| WlShellSurfaces.WlShellSurface.SetMaximized | src/libgreenisland/protocols/wl-shell/wlshellsurface.cpp:378-403 | role and surface become `WlShellSpec.SetMaximized` for the named output, or the main output when none is named |
| WlShellSurfaces.WlShellSurface.SetTitle | src/libgreenisland/protocols/wl-shell/wlshellsurface.cpp:405-410 | the surface becomes `WlShellSpec.SetTitle` of the old one |
| WlShellSurfaces.WlShellSurface.SetClass | src/libgreenisland/protocols/wl-shell/wlshellsurface.cpp:412-417 | the surface becomes `WlShellSpec.SetClass` of the old one |
| WlShellSurfaces.WlShellSurface.OnMapped | src/libgreenisland/protocols/wl-shell/wlshellsurface.cpp:72-82 | role and grabber become `WlShellSpec.OnMapped`; a popup must have its grabber, as set_popup ensures |
| WlShellSurfaces.WlShellSurface.OnUnmapped | src/libgreenisland/protocols/wl-shell/wlshellsurface.cpp:83-89 | role and grabber become `WlShellSpec.OnUnmapped` |
| XdgRoles.XdgSurface.constructor | src/libgreenisland/protocols/xdg-shell/xdgshell.cpp:88 | the role records its surface, client and id |
| XdgRoles.XdgPopup.constructor | src/libgreenisland/protocols/xdg-shell/xdgshell.cpp:107-108 | the popup records parent, surface, client, id and serial, with no grabber yet |
| XdgShellSpec.Empty | src/libgreenisland/protocols/xdg-shell/xdgshell.cpp:40-42 | a new registry has no pings, no grabbers, nothing sent |
| XdgShellSpec.PingSurface | src/libgreenisland/protocols/xdg-shell/xdgshell.cpp:58-64 | the serial maps to the surface, other entries are kept, a ping with that serial is sent |
| XdgShellSpec.PopupGrabberFor | src/libgreenisland/protocols/xdg-shell/xdgshell.cpp:66-72 | a known device's grabber is returned with the cache unchanged; a new device gets the created grabber inserted; entries are never removed or replaced |
| XdgShellSpec.UseUnstableVersion | src/libgreenisland/protocols/xdg-shell/xdgshell.cpp:74-80 | an invalid_object error exactly when the version differs from the current one; nothing else changes |
| XdgShellSpec.Pong | src/libgreenisland/protocols/xdg-shell/xdgshell.cpp:112-120 | the serial's entry is removed and the others kept; an unknown serial changes nothing |
| XdgShellSpec.PingThenPong | src/libgreenisland/protocols/xdg-shell/xdgshell.cpp:58-120 | a pong for the serial just pinged removes exactly what the ping added |
| XdgShellSpec.GrabberLookupIdempotent | src/libgreenisland/protocols/xdg-shell/xdgshell.cpp:66-72 | a second lookup for the same device returns the same grabber and leaves the cache as it was |
| XdgShellSpec.RunKeepsGrabbers | src/libgreenisland/protocols/xdg-shell/xdgshell.cpp:66-72 | over any sequence of requests the grabber cache never shrinks and no cached grabber is replaced |
| XdgShellSpec.RunKeepsDevices | src/libgreenisland/protocols/xdg-shell/xdgshell.cpp:66-72 | over any sequence of requests every cached grabber belongs to the device it is cached under |
| XdgShells.XdgShell.constructor | src/libgreenisland/protocols/xdg-shell/xdgshell.cpp:40-42 | the object starts as `XdgShellSpec.Empty` and valid |
| XdgShells.XdgShell.PingSurface | src/libgreenisland/protocols/xdg-shell/xdgshell.cpp:58-64 | the fields become `XdgShellSpec.PingSurface` of the old fields |
| XdgShells.XdgShell.PopupGrabberForDevice | src/libgreenisland/protocols/xdg-shell/xdgshell.cpp:66-72 | the fields and result follow `XdgShellSpec.PopupGrabberFor`; a known device gets its cached grabber, a new one a fresh grabber of that device |
| XdgShells.XdgShell.UseUnstableVersion | src/libgreenisland/protocols/xdg-shell/xdgshell.cpp:74-80 | the fields become `XdgShellSpec.UseUnstableVersion` against the server's current version |
| XdgShells.XdgShell.GetXdgSurface | src/libgreenisland/protocols/xdg-shell/xdgshell.cpp:82-89 | nothing is created when the surface is not a QuickSurface; otherwise a new role on that surface, client and id |
| XdgShells.XdgShell.GetXdgPopup | src/libgreenisland/protocols/xdg-shell/xdgshell.cpp:91-110 | the surface gets the parent and offset (x, y) and nothing else; the new popup carries the serial and the device's cached grabber |
| XdgShells.XdgShell.Pong | src/libgreenisland/protocols/xdg-shell/xdgshell.cpp:112-120 | the fields become `XdgShellSpec.Pong`; the taken surface is returned, null for an unknown serial |

## Left out

- src/libgreenisland/outputwindow.cpp and src/libgreenisland/homeapplication.h are not part of this model. The first is QML loading, window showing and frame callbacks. The second holds declarations only.
- Move and resize grabber motion and button handling (the grabber classes, including src/libgreenisland/protocols/xdg-shell/xdgsurfaceresizegrabber.h) is not modelled. Their code is not available. A grabber is the record of the fields its creator fills. Grabs are never released in this model, so the grabber slots only fill.
- Popup grabber internals are not modelled: `addPopup`/`removePopup`, the dismissal cascade, and how the grabber's serial and client get set. The calls the roles make on a grabber are recorded in its `calls` log.
- The wl_shell registry (`WlShell::popupGrabberForDevice`) is not part of this model. `WlShellSurface.SetPopup` receives its result as a parameter.
- The surface's `configure` handler, which calls `setMapped`, is not modelled. The map/unmap signalling inside the compositor surface is not available. The mapped and unmapped handlers are methods that the caller invokes.
- Object lifetime and Wayland resources are reduced to events. `wl_resource_destroy` and `delete this` are appended to the log as `ResourceDestroyed` and `ObjectDeleted`; there is no deallocation and no view creation (`WindowView`).
- The view accessors are not modelled: `view`, `window`, `parentView`, `parentWindow`, `type`, `state`, `surface`, `transientOffset`, `setTransientOffset`. They are plain reads or view plumbing. The main output of the view is a constant of the role.
- `XdgShell::bind`, the transport and argument decoding are not modelled. Seats become pointers and device identities, resources become surfaces and outputs, and a failed `qobject_cast` becomes a null argument.
- `XdgSurface::nextSerial` is not part of this model: `XdgShell.PingSurface` receives the serial it returns. `version_current` comes from the generated xdg-shell header: it is a constructor parameter.
- The handlers of the created xdg surfaces and popups are not part of this model.
- Qt floating-point geometry and its fuzzy comparison are not modelled: coordinates are integers.
- The relative order of a role's events and its surface's signals is not kept. They go to two separate logs, and within each log the order is kept.
- WlShellSpec: the popup grabber is held as a value copy inside the window, so the specification reasons about one role at a time. The class shares one grabber object between roles.

