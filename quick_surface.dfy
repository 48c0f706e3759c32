/**
 * The surface that the shell roles drive: window state and global position
 * behind equality guards that emit change notifications, and the global
 * geometry derived from position and size.  The value-level functions are the
 * specification; class QuickSurface holds the same data as mutable fields.
 *
 * Besides the fields of its own, the value carries the attributes of the
 * underlying compositor surface that the shells write (window type,
 * transient parent and offset, title, class name); the buffer size is set
 * by the buffer commit pipeline, not by anything modelled here.
 */
module QuickSurfaces {
  import opened Common
  import opened Geometry

  datatype State = Normal | Maximized | FullScreen

  /** The compositor surface's window type; `Unassigned` is its initial "None". */
  datatype WindowType = Unassigned | Toplevel | Transient | Popup

  /** Change notifications emitted by the surface, in emission order. */
  datatype Signal = StateChanged | GlobalPositionChanged | GlobalGeometryChanged | Pong

  datatype SurfaceValue = SurfaceValue(
    id: SurfaceId,
    state: State,
    globalPos: Point,
    size: Size,
    windowType: WindowType,
    transientParent: Option<SurfaceId>,
    transientOffset: Point,
    transientInactive: bool,
    title: string,
    className: string,
    signals: seq<Signal>)

  /** A freshly created surface of the given buffer size. */
  function Fresh(id: SurfaceId, size: Size): (v: SurfaceValue)
    ensures v.id == id && v.size == size && v.signals == []
    ensures v.state == Normal && v.globalPos == Point(0, 0)
  {
    SurfaceValue(id, Normal, Point(0, 0), size, Unassigned, None, Point(0, 0), false, "", "", [])
  }

  /** setState: stores a different state and emits stateChanged once; the same state is a no-op. */
  function WithState(v: SurfaceValue, s: State): (r: SurfaceValue)
    ensures r.state == s
    ensures v.state == s ==> r == v
    ensures v.state != s ==> r.signals == v.signals + [StateChanged]
    ensures r.(state := v.state, signals := v.signals) == v
  {
    if v.state == s then v else v.(state := s, signals := v.signals + [StateChanged])
  }

  /**
   * setGlobalPosition: stores a different position and emits
   * globalPositionChanged then globalGeometryChanged; the same position is a no-op.
   */
  function WithGlobalPosition(v: SurfaceValue, p: Point): (r: SurfaceValue)
    ensures r.globalPos == p
    ensures GeometryOf(r) == Rect(p, v.size)
    ensures v.globalPos == p ==> r == v
    ensures v.globalPos != p ==> r.signals == v.signals + [GlobalPositionChanged, GlobalGeometryChanged]
    ensures r.(globalPos := v.globalPos, signals := v.signals) == v
  {
    if v.globalPos == p then v
    else v.(globalPos := p, signals := v.signals + [GlobalPositionChanged, GlobalGeometryChanged])
  }

  /** globalGeometry: the rectangle at the global position with the surface's current size. */
  function GeometryOf(v: SurfaceValue): (r: Rect)
    ensures r.origin == v.globalPos && r.size == v.size
    ensures IsValid(r) <==> v.size.width > 0 && v.size.height > 0
  {
    Rect(v.globalPos, v.size)
  }

  /** setState applied a second time with the same value changes nothing. */
  lemma WithStateIdempotent(v: SurfaceValue, s: State)
    ensures WithState(WithState(v, s), s) == WithState(v, s)
  {
  }

  /** setGlobalPosition applied a second time with the same value changes nothing. */
  lemma WithGlobalPositionIdempotent(v: SurfaceValue, p: Point)
    ensures WithGlobalPosition(WithGlobalPosition(v, p), p) == WithGlobalPosition(v, p)
  {
  }

  /** The number of real changes when the states `ss` are stored one after another, starting from `s`. */
  function Changes(s: State, ss: seq<State>): nat
    decreases |ss|
  {
    if ss == [] then 0 else (if ss[0] == s then 0 else 1) + Changes(ss[0], ss[1..])
  }

  function StateChangedTimes(n: nat): seq<Signal>
  {
    if n == 0 then [] else [StateChanged] + StateChangedTimes(n - 1)
  }

  /** Stores the states `ss` one after another with setState. */
  function WithStates(v: SurfaceValue, ss: seq<State>): SurfaceValue
    decreases |ss|
  {
    if ss == [] then v else WithStates(WithState(v, ss[0]), ss[1..])
  }

  /**
   * Over any sequence of setState calls, stateChanged is emitted exactly once
   * per real change, and the state read back is the last one stored.
   */
  lemma {:induction false} WithStatesSignals(v: SurfaceValue, ss: seq<State>)
    ensures WithStates(v, ss).signals == v.signals + StateChangedTimes(Changes(v.state, ss))
    ensures WithStates(v, ss).state == if ss == [] then v.state else ss[|ss| - 1]
    decreases |ss|
  {
    if ss != [] {
      var v1 := WithState(v, ss[0]);
      WithStatesSignals(v1, ss[1..]);
      if v.state != ss[0] {
        assert v1.signals + StateChangedTimes(Changes(ss[0], ss[1..]))
            == v.signals + StateChangedTimes(Changes(v.state, ss));
      }
    }
  }

  class QuickSurface {
    const id: SurfaceId
    var state: State
    var globalPos: Point
    var size: Size
    var windowType: WindowType
    var transientParent: Option<SurfaceId>
    var transientOffset: Point
    var transientInactive: bool
    var title: string
    var className: string
    var signals: seq<Signal>

    /** The surface as a value. */
    function Value(): SurfaceValue
      reads this
    {
      SurfaceValue(id, state, globalPos, size, windowType, transientParent, transientOffset,
                   transientInactive, title, className, signals)
    }

    /** A new surface is Normal at (0, 0). */
    constructor (id: SurfaceId, size: Size)
      ensures Value() == Fresh(id, size)
    {
      this.id := id;
      this.state := Normal;
      this.globalPos := Point(0, 0);
      this.size := size;
      this.windowType := Unassigned;
      this.transientParent := None;
      this.transientOffset := Point(0, 0);
      this.transientInactive := false;
      this.title := "";
      this.className := "";
      this.signals := [];
    }

    method SetState(s: State)
      modifies this
      ensures Value() == WithState(old(Value()), s)
    {
      if state == s {
        return;
      }
      state := s;
      signals := signals + [StateChanged];
    }

    method SetGlobalPosition(p: Point)
      modifies this
      ensures Value() == WithGlobalPosition(old(Value()), p)
    {
      if globalPos == p {
        return;
      }
      globalPos := p;
      signals := signals + [GlobalPositionChanged];
      signals := signals + [GlobalGeometryChanged];
    }

    function GlobalGeometry(): (r: Rect)
      reads this
      ensures r == GeometryOf(Value())
    {
      Rect(globalPos, size)
    }
  }
}
