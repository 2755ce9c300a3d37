/**
 * The draggable pin of a drawing tool: a small state machine
 * (tracking, dragging, settled) driven by the mouse. Its transitions are
 * pure functions on a snapshot of the pin's fields, and class Pin carries
 * them out in place, sending its notifications through the overlay it
 * belongs to.
 */
module Pins {
  import opened Wrappers
  import opened Host

  datatype PinState = Tracking | Dragging | Settled

  /** The pin radius used when the overlay's configuration sets none. */
  const DEFAULT_RADIUS: real := 5.5

  /** The drawn radius and the squared hit radius. */
  datatype Radii = Radii(radius: real, radiusSq: real)

  /**
   * The radii of a new pin. The hit radius is 7 more than the configured
   * radius; on mobile the drawn radius grows by 2 and the squared hit radius,
   * already computed from the smaller radius, is multiplied by 2.5.
   */
  function HitRadii(configured: Option<real>, mobile: bool): (r: Radii)
    ensures r.radiusSq ==
      if mobile then 2.5 * (r.radius + 5.0) * (r.radius + 5.0) else (r.radius + 7.0) * (r.radius + 7.0)
    ensures r.radiusSq >= 0.0
    ensures configured.Some? && configured.value != 0.0 ==>
      r.radius == configured.value + (if mobile then 2.0 else 0.0)
    ensures configured.None? || configured.value == 0.0 ==>
      r.radius == DEFAULT_RADIUS + (if mobile then 2.0 else 0.0)
  {
    var base := if configured.Some? && configured.value != 0.0 then configured.value else DEFAULT_RADIUS;
    var sq := (base + 7.0) * (base + 7.0);
    if mobile then Radii(base + 2.0, sq * 2.5) else Radii(base, sq)
  }

  /**
   * A snapshot of a pin's mutable fields: its state, the hidden and moved
   * flags, its time/price (`t`, `y$`) and screen position, the position
   * recorded for a group drag (`t1`, `y$1`), and whether a `settled`
   * callback is installed.
   */
  datatype PinView = PinView(
    state: PinState,
    hidden: bool,
    moved: bool,
    t: real,
    value: real,
    x: real,
    y: real,
    t1: real,
    value1: real,
    hasOnSettled: bool)

  /** `hover()`: the mouse is strictly inside the hit circle. */
  predicate Hovers(x: real, y: real, radiusSq: real, mouseX: real, mouseY: real)
  {
    (x - mouseX) * (x - mouseX) + (y - mouseY) * (y - mouseY) < radiusSq
  }

  /** The distance along one axis. */
  function Gap(a: real, b: real): real
  {
    if a >= b then a - b else b - a
  }

  /** Squaring keeps the order of non-negative numbers. */
  lemma SquareMonotone(a: real, b: real)
    requires 0.0 <= a < b
    ensures a * a < b * b
  {
    calc {
      a * a;
    <= { assert (b - a) * a >= 0.0; }
      a * b;
    < { assert (b - a) * b > 0.0; }
      b * b;
    }
  }

  /**
   * What the hit test means, for a hit radius `d` (so `RADIUS_SQ == d * d`):
   * a hovering mouse lies strictly within `d` of the pin along each axis,
   * and a mouse whose axis distances add up to less than `d` hovers. In
   * particular a mouse right on a pin with a positive hit radius hovers.
   */
  lemma HoverWithinHitRadius(x: real, y: real, d: real, mouseX: real, mouseY: real)
    requires d >= 0.0
    ensures Hovers(x, y, d * d, mouseX, mouseY) ==> Gap(x, mouseX) < d && Gap(y, mouseY) < d
    ensures Gap(x, mouseX) + Gap(y, mouseY) < d ==> Hovers(x, y, d * d, mouseX, mouseY)
  {
    var gx, gy := Gap(x, mouseX), Gap(y, mouseY);
    assert gx * gx == (x - mouseX) * (x - mouseX);
    assert gy * gy == (y - mouseY) * (y - mouseY);
    assert gx * gx >= 0.0 && gy * gy >= 0.0 && gx * gy >= 0.0;
    if d <= gx {
      if d < gx { SquareMonotone(d, gx); }
    }
    if d <= gy {
      if d < gy { SquareMonotone(d, gy); }
    }
    if gx + gy < d {
      SquareMonotone(gx + gy, d);
      assert (gx + gy) * (gx + gy) == gx * gx + gy * gy + 2.0 * (gx * gy);
    }
  }

  /** The fields `update()` rewrites: position copied from the cursor, missing coordinates read as 0. */
  function FollowCursor(v: PinView, c: Cursor): PinView
  {
    v.(t := OrZero(c.t), value := OrZero(c.value), x := OrZero(c.x), y := OrZero(c.y))
  }

  /** The fields `update_from([t, y$])` rewrites: the stored position and its screen image. */
  function PlacedAt(v: PinView, layout: Layout, pos: (real, real)): PinView
  {
    v.(t := pos.0, value := pos.1, x := layout.timeToScreen(pos.0), y := layout.valueToScreen(pos.1))
  }

  /** The snapshot `rec_position()` takes: the current position becomes the drag origin. */
  function Recorded(v: PinView): PinView
  {
    v.(t1 := v.t, value1 := v.value)
  }

  /** The call of the `settled` callback, when one is installed. */
  function SettledCallback(name: string, v: PinView): seq<Event>
  {
    if v.hasOnSettled then [PinSettled(name)] else []
  }

  // ---------------------------------------------------------------- transitions

  /**
   * `mousemove`: a tracking or dragging pin follows the cursor and is marked
   * moved; a settled pin ignores the mouse.
   */
  function AfterMove(v: PinView, c: Cursor): (r: PinView)
    ensures r.state == v.state && r.hidden == v.hidden && r.hasOnSettled == v.hasOnSettled
    ensures r.t1 == v.t1 && r.value1 == v.value1
    ensures v.state == Settled ==> r == v
    ensures v.state != Settled ==>
      r.moved && r.t == OrZero(c.t) && r.value == OrZero(c.value) && r.x == OrZero(c.x) && r.y == OrZero(c.y)
  {
    if v.state == Settled then v else FollowCursor(v, c).(moved := true)
  }

  function MoveEvents(name: string, v: PinView, c: Cursor): seq<Event>
  {
    if v.state == Settled then [] else [ChangeSettings(name, OrZero(c.t), OrZero(c.value))]
  }

  /**
   * `mousedown` when it is not blocked: a tracking pin is dropped (settled),
   * a visible settled pin under the mouse is picked up (dragging, not yet
   * moved), and a dragging pin stays as it is. Only the state and the moved
   * flag change.
   */
  function AfterPress(v: PinView, hovering: bool): (r: PinView)
    ensures r.state != Tracking
    ensures v.state == Tracking ==> r.state == Settled
    ensures v.state == Dragging ==> r == v
    ensures (r.state == Dragging && v.state != Dragging) <==> (v.state == Settled && !v.hidden && hovering)
    ensures r.state == Dragging && v.state != Dragging ==> !r.moved
    ensures r == v.(state := r.state, moved := r.moved)
  {
    match v.state
    case Tracking => v.(state := Settled)
    case Settled => if !v.hidden && hovering then v.(state := Dragging, moved := false) else v
    case Dragging => v
  }

  function PressEvents(name: string, v: PinView, hovering: bool): seq<Event>
  {
    match v.state
    case Tracking => SettledCallback(name, v) + [ScrollLock(false)]
    case Settled => if !v.hidden && hovering then [ScrollLock(true), ObjectSelected] else []
    case Dragging => []
  }

  /** `mouseup`: a dragging pin is dropped; in any other state nothing happens. */
  function AfterRelease(v: PinView): (r: PinView)
    ensures r.state != Dragging
    ensures v.state == Dragging ==> r.state == Settled
    ensures v.state != Dragging ==> r == v
    ensures r == v.(state := r.state)
  {
    if v.state == Dragging then v.(state := Settled) else v
  }

  function ReleaseEvents(name: string, v: PinView): seq<Event>
  {
    if v.state == Dragging then SettledCallback(name, v) + [ScrollLock(false)] else []
  }

  // ---------------------------------------------------------------- scroll lock

  /** The values of the scroll-lock notifications among `es`, in order. */
  function Locks(es: seq<Event>): seq<bool>
  {
    if |es| == 0 then []
    else (if es[0].ScrollLock? then [es[0].lock] else []) + Locks(es[1..])
  }

  lemma {:induction false} LocksAppend(a: seq<Event>, b: seq<Event>)
    ensures Locks(a + b) == Locks(a) + Locks(b)
    decreases |a|
  {
    if |a| == 0 {
      assert a + b == b;
    } else {
      var head := if a[0].ScrollLock? then [a[0].lock] else [];
      assert (a + b)[0] == a[0];
      assert (a + b)[1..] == a[1..] + b;
      calc {
        Locks(a + b);
        head + Locks(a[1..] + b);
        { LocksAppend(a[1..], b); }
        head + (Locks(a[1..]) + Locks(b));
        (head + Locks(a[1..])) + Locks(b);
      }
    }
  }

  /**
   * The scroll-lock notification a change of state calls for: the chart's
   * scrolling is locked while a pin is not settled, so leaving `settled`
   * sends `true`, entering it sends `false`, and anything else sends none.
   */
  function LockChange(before: PinState, after: PinState): seq<bool>
  {
    if (before == Settled) == (after == Settled) then [] else [after != Settled]
  }

  /**
   * Every mouse transition sends exactly the scroll-lock notification its
   * change of state calls for, so the chart's scroll lock stays on exactly
   * while the pin is unsettled.
   */
  lemma ScrollLockFollowsState(name: string, v: PinView, hovering: bool, c: Cursor)
    ensures Locks(PressEvents(name, v, hovering)) == LockChange(v.state, AfterPress(v, hovering).state)
    ensures Locks(ReleaseEvents(name, v)) == LockChange(v.state, AfterRelease(v).state)
    ensures Locks(MoveEvents(name, v, c)) == LockChange(v.state, AfterMove(v, c).state)
  {
    LocksAppend(SettledCallback(name, v), [ScrollLock(false)]);
    LocksAppend([ScrollLock(true)], [ObjectSelected]);
  }

  /**
   * A full drag: a press on a visible settled pin under the mouse picks it
   * up, a move carries it to the cursor, and the release settles it there.
   */
  lemma DragCycle(name: string, v: PinView, c: Cursor)
    requires v.state == Settled && !v.hidden
    ensures var held := AfterPress(v, true);
      var moved := AfterMove(held, c);
      var dropped := AfterRelease(moved);
      && held.state == Dragging && !held.moved
      && dropped.state == Settled && dropped.moved
      && dropped.t == OrZero(c.t) && dropped.value == OrZero(c.value)
      && PressEvents(name, v, true) + MoveEvents(name, held, c) + ReleaseEvents(name, moved)
         == [ScrollLock(true), ObjectSelected, ChangeSettings(name, OrZero(c.t), OrZero(c.value))]
            + SettledCallback(name, v) + [ScrollLock(false)]
  {
  }

  // ---------------------------------------------------------------- the pin

  /** Whether a new pin takes its position from the saved settings: the tool is finished and the pin's key is set. */
  predicate Restored(comp: Overlay, name: string)
    reads comp
  {
    comp.settings.state == Some("finished") && name in comp.settings.pinPositions
  }

  class Pin {
    const comp: Overlay
    const name: string
    const radius: real
    const radiusSq: real
    var state: PinState
    var hidden: bool
    var moved: bool
    var t: real
    var value: real
    var x: real
    var y: real
    var t1: real
    var value1: real
    var hasOnSettled: bool

    function View(): PinView
      reads this
    {
      PinView(state, hidden, moved, t, value, x, y, t1, value1, hasOnSettled)
    }

    predicate Hover()
      reads this, comp
    {
      Hovers(x, y, radiusSq, comp.mouseX, comp.mouseY)
    }

    /**
     * A new pin: `params.state` (default settled) unless the tool is
     * finished and the pin's position is saved, in which case it is settled
     * there; otherwise it starts at the cursor and reports that position. An
     * unsettled new pin locks scrolling.
     */
    constructor(comp: Overlay, name: string, initialState: Option<PinState>, hidden: bool, mobile: bool)
      modifies comp.log
      ensures this.comp == comp && this.name == name
      ensures Radii(radius, radiusSq) == HitRadii(comp.pinRadius, mobile)
      ensures this.hidden == hidden && !moved && !hasOnSettled && t1 == 0.0 && value1 == 0.0
      ensures Restored(comp, name) ==>
        && state == Settled
        && View() == PlacedAt(View(), comp.layout, comp.settings.pinPositions[name])
        && (t, value) == comp.settings.pinPositions[name]
      ensures !Restored(comp, name) ==>
        state == initialState.GetOr(Settled) && View() == FollowCursor(View(), comp.cursor)
      ensures comp.log.events == old(comp.log.events)
        + (if Restored(comp, name) then [] else [ChangeSettings(name, t, value)])
        + (if state != Settled then [ScrollLock(true)] else [])
    {
      this.comp := comp;
      this.name := name;
      var r := HitRadii(comp.pinRadius, mobile);
      radius := r.radius;
      radiusSq := r.radiusSq;
      state := initialState.GetOr(Settled);
      this.hidden := hidden;
      moved := false;
      t, value, x, y := 0.0, 0.0, 0.0, 0.0;
      t1, value1 := 0.0, 0.0;
      hasOnSettled := false;
      new;
      if Restored(comp, name) {
        state := Settled;
        UpdateFrom(Some(comp.settings.pinPositions[name]), false);
      } else {
        Update();
      }
      if state != Settled {
        comp.log.Emit(ScrollLock(true));
      }
    }

    /** `update()`: move to the cursor and report the new position to the chart. */
    method Update()
      modifies this, comp.log
      ensures View() == FollowCursor(old(View()), comp.cursor)
      ensures comp.log.events == old(comp.log.events) + [ChangeSettings(name, t, value)]
    {
      value := OrZero(comp.cursor.value);
      y := OrZero(comp.cursor.y);
      t := OrZero(comp.cursor.t);
      x := OrZero(comp.cursor.x);
      comp.log.Emit(ChangeSettings(name, t, value));
    }

    /** `update_from(data, emit)`: move to a stored `[t, y$]`, reporting it when asked; no data, no change. */
    method UpdateFrom(data: Option<(real, real)>, emit: bool)
      modifies this, comp.log
      ensures data.None? ==> View() == old(View())
      ensures data.Some? ==> View() == PlacedAt(old(View()), comp.layout, data.value)
      ensures comp.log.events == old(comp.log.events)
        + (if data.Some? && emit then [ChangeSettings(name, data.value.0, data.value.1)] else [])
    {
      if data.None? {
        return;
      }
      value := data.value.1;
      y := comp.layout.valueToScreen(value);
      t := data.value.0;
      x := comp.layout.timeToScreen(t);
      if emit {
        comp.log.Emit(ChangeSettings(name, t, value));
      }
    }

    /** `re_init()`: move to the position saved in the settings, if any, without reporting it. */
    method ReInit()
      modifies this, comp.log
      ensures name in comp.settings.pinPositions ==>
        View() == PlacedAt(old(View()), comp.layout, comp.settings.pinPositions[name])
      ensures name !in comp.settings.pinPositions ==> View() == old(View())
      ensures comp.log.events == old(comp.log.events)
    {
      if name in comp.settings.pinPositions {
        UpdateFrom(Some(comp.settings.pinPositions[name]), false);
      } else {
        UpdateFrom(None, false);
      }
    }

    /** `rec_position()`: remember the current position as the start of a group drag. */
    method RecPosition()
      modifies this
      ensures View() == Recorded(old(View()))
    {
      t1 := t;
      value1 := value;
    }

    method MouseMove()
      modifies this, comp.log
      ensures View() == AfterMove(old(View()), comp.cursor)
      ensures comp.log.events == old(comp.log.events) + MoveEvents(name, old(View()), comp.cursor)
    {
      match state
      case Tracking =>
        moved := true;
        Update();
      case Dragging =>
        moved := true;
        Update();
      case Settled =>
    }

    /**
     * `mousedown(event, force)`: ignored when the event was already handled
     * unless forced; otherwise the press transition. Returns whether the
     * event's default is prevented, which happens when the mouse is over the
     * pin, except on a hidden settled pin.
     */
    method MouseDown(prevented: bool, force: bool) returns (preventDefault: bool)
      modifies this, comp.log
      ensures prevented && !force ==> View() == old(View()) && comp.log.events == old(comp.log.events)
      ensures !(prevented && !force) ==>
        && View() == AfterPress(old(View()), old(Hover()))
        && comp.log.events == old(comp.log.events) + PressEvents(name, old(View()), old(Hover()))
      ensures preventDefault <==>
        !(prevented && !force) && !(old(state) == Settled && hidden) && old(Hover())
    {
      if prevented && !force {
        return false;
      }
      var hovering := Hover();
      match state {
        case Tracking =>
          state := Settled;
          if hasOnSettled {
            comp.log.Emit(PinSettled(name));
          }
          comp.log.Emit(ScrollLock(false));
        case Settled =>
          if hidden {
            return false;
          }
          if hovering {
            state := Dragging;
            moved := false;
            comp.log.Emit(ScrollLock(true));
            comp.log.Emit(ObjectSelected);
          }
        case Dragging =>
      }
      preventDefault := Hover();
    }

    method MouseUp()
      modifies this, comp.log
      ensures View() == AfterRelease(old(View()))
      ensures comp.log.events == old(comp.log.events) + ReleaseEvents(name, old(View()))
    {
      if state == Dragging {
        state := Settled;
        if hasOnSettled {
          comp.log.Emit(PinSettled(name));
        }
        comp.log.Emit(ScrollLock(false));
      }
    }

    /** `on(name, handler)`: only the `settled` event has a slot; `handler` says whether a callback is given. */
    method On(event: string, handler: bool)
      modifies this
      ensures View() == if event == "settled" then old(View()).(hasOnSettled := handler) else old(View())
    {
      if event == "settled" {
        hasOnSettled := handler;
      }
    }
  }
}
