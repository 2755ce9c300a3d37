/**
 * The overlay component a drawing tool lives in, as its pins and the tool
 * mixin see it: the props the chart passes down (cursor, settings, layout,
 * configuration), the shared mouse controller's position, and the log of
 * notifications the component `$emit`s to the chart.
 */
module Host {
  import opened Wrappers

  /**
   * A notification sent to the chart: `$emit('scroll-lock', b)`,
   * `$emit('object-selected')`, `$emit('change-settings', {name: [t, y$]})`,
   * `$emit('change-settings', {$state: s})`, `$emit('remove-tool')`, and a
   * call of a pin's `settled` callback, which the concrete tool supplies.
   */
  datatype Event =
    | ScrollLock(lock: bool)
    | ObjectSelected
    | ChangeSettings(key: string, t: real, value: real)
    | ChangeState(state: string)
    | RemoveRequested
    | PinSettled(pin: string)

  /** The component's outgoing notifications, in the order they were sent. */
  class Emitter {
    var events: seq<Event>

    constructor()
      ensures events == []
    {
      events := [];
    }

    method Emit(e: Event)
      modifies this
      ensures events == old(events) + [e]
    {
      events := events + [e];
    }
  }

  /** The `cursor` prop: time, price (`y$`) and screen coordinates, each possibly missing. */
  datatype Cursor = Cursor(t: Option<real>, value: Option<real>, x: Option<real>, y: Option<real>)

  /** `v || 0`: a missing coordinate reads as 0. */
  function OrZero(v: Option<real>): real
  {
    match v
    case Some(x) => x
    case None => 0.0
  }

  /** The layout's `t2screen` and `$2screen` transforms, left abstract. */
  datatype Layout = Layout(timeToScreen: real -> real, valueToScreen: real -> real)

  /**
   * The overlay's `settings` prop: the reserved `$uuid`, `$selected` and
   * `$state` keys and the stored `[t, y$]` position of each named pin.
   */
  datatype Settings = Settings(
    uuid: Option<string>,
    selected: bool,
    state: Option<string>,
    pinPositions: map<string, (real, real)>)

  /** The overlay component. Only the chart changes its props; the model changes only its event log. */
  class Overlay {
    var cursor: Cursor
    var mouseX: real
    var mouseY: real
    var settings: Settings
    var layout: Layout
    /** `config.PIN_RADIUS`. */
    const pinRadius: Option<real>
    const log: Emitter

    constructor(cursor: Cursor, mouseX: real, mouseY: real, settings: Settings, layout: Layout, pinRadius: Option<real>)
      ensures this.cursor == cursor && this.mouseX == mouseX && this.mouseY == mouseY
      ensures this.settings == settings && this.layout == layout && this.pinRadius == pinRadius
      ensures fresh(log) && log.events == []
    {
      this.cursor := cursor;
      this.mouseX := mouseX;
      this.mouseY := mouseY;
      this.settings := settings;
      this.layout := layout;
      this.pinRadius := pinRadius;
      log := new Emitter();
    }
  }
}
