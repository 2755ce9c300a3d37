/**
 * The drawing-tool mixin: the state an overlay keeps to let the user drag a
 * whole tool (the collision tests its primitives registered, its pins,
 * whether the pins are shown, and the drag anchor), and the mouse and key
 * handlers that move its pins together.
 */
module Tools {
  import opened Wrappers
  import opened Host
  import opened Pins

  /** A hit test registered by a primitive for the last frame: `(x, y) => bool`. */
  type Collision = (real, real) -> bool

  /** `collisions.some(f => f(x, y))`. */
  predicate Hits(collisions: seq<Collision>, x: real, y: real)
  {
    exists k :: 0 <= k < |collisions| && collisions[k](x, y)
  }

  /** The cursor position a drag starts from: `{t, y$}`. */
  datatype Anchor = Anchor(t: real, value: real)

  /** The cursor carries the time and price a drag needs. */
  predicate CursorPlaced(c: Cursor)
  {
    c.t.Some? && c.value.Some?
  }

  /**
   * Where `drag_update` puts a pin: its recorded position shifted by the
   * cursor's displacement from the drag anchor, the same shift for every pin.
   */
  function DragTarget(v: PinView, a: Anchor, c: Cursor): (p: (real, real))
    requires CursorPlaced(c)
    ensures p.0 - v.t1 == c.t.value - a.t && p.1 - v.value1 == c.value.value - a.value
  {
    (v.t1 + (c.t.value - a.t), v.value1 + (c.value.value - a.value))
  }

  /** Two pins dragged together keep their recorded offset from each other. */
  lemma DragKeepsOffsets(v: PinView, w: PinView, a: Anchor, c: Cursor)
    requires CursorPlaced(c)
    ensures DragTarget(v, a, c).0 - DragTarget(w, a, c).0 == v.t1 - w.t1
    ensures DragTarget(v, a, c).1 - DragTarget(w, a, c).1 == v.value1 - w.value1
    ensures c.t.value == a.t && c.value.value == a.value ==> DragTarget(v, a, c) == (v.t1, v.value1)
  {
  }

  // ---------------------------------------------------------------- snapshots of the pins

  function NamesOf(ps: seq<Pin>): (names: seq<string>)
    ensures |names| == |ps|
    ensures forall j :: 0 <= j < |ps| ==> names[j] == ps[j].name
  {
    seq(|ps|, j requires 0 <= j < |ps| => ps[j].name)
  }

  function ViewsOf(ps: seq<Pin>): (vs: seq<PinView>)
    reads set p | p in ps
    ensures |vs| == |ps|
    ensures forall j :: 0 <= j < |ps| ==> vs[j] == ps[j].View()
    decreases |ps|
  {
    if |ps| == 0 then [] else ViewsOf(ps[..|ps| - 1]) + [ps[|ps| - 1].View()]
  }

  /** What a forced press of one pin depends on: its name, its fields and whether the mouse is over it. */
  datatype Press = Press(name: string, view: PinView, hovering: bool)

  /** The press each pin would receive now. */
  function PressesOf(ps: seq<Pin>): (r: seq<Press>)
    reads (set p | p in ps), (set p | p in ps :: p.comp)
    ensures |r| == |ps|
    ensures forall k :: 0 <= k < |ps| ==>
      r[k] == Press(ps[k].name, ps[k].View(), Hovers(ps[k].x, ps[k].y, ps[k].radiusSq, ps[k].comp.mouseX, ps[k].comp.mouseY))
    decreases |ps|
  {
    var n := |ps|;
    if n == 0 then []
    else PressesOf(ps[..n - 1]) + [Press(ps[n - 1].name, ps[n - 1].View(), Hovers(ps[n - 1].x, ps[n - 1].y, ps[n - 1].radiusSq, ps[n - 1].comp.mouseX, ps[n - 1].comp.mouseY))]
  }

  /** The notifications of a sequence of presses, in order. */
  function PressedEvents(presses: seq<Press>): seq<Event>
  {
    var n := |presses|;
    if n == 0 then []
    else PressedEvents(presses[..n - 1]) + PressEvents(presses[n - 1].name, presses[n - 1].view, presses[n - 1].hovering)
  }

  /** The notifications of moving each pin to its drag target. */
  function DraggedEvents(names: seq<string>, views: seq<PinView>, a: Anchor, c: Cursor): (es: seq<Event>)
    requires |names| == |views| && CursorPlaced(c)
    ensures |es| == |names|
    ensures forall j :: 0 <= j < |names| ==>
      es[j] == ChangeSettings(names[j], DragTarget(views[j], a, c).0, DragTarget(views[j], a, c).1)
  {
    seq(|names|, j requires 0 <= j < |names| =>
      ChangeSettings(names[j], DragTarget(views[j], a, c).0, DragTarget(views[j], a, c).1))
  }

  /** The presses after `rec_position()` has recorded every pin's drag origin. */
  function RecordedPresses(presses: seq<Press>): (r: seq<Press>)
    ensures |r| == |presses|
    ensures forall k :: 0 <= k < |presses| ==> r[k] == presses[k].(view := Recorded(presses[k].view))
  {
    seq(|presses|, k requires 0 <= k < |presses| => presses[k].(view := Recorded(presses[k].view)))
  }

  /**
   * Recording the drag origin does not change what pressing the pins sends:
   * the press notifications depend only on state, visibility and callback.
   */
  lemma {:induction false} PressedEventsIgnoreRecording(presses: seq<Press>)
    ensures PressedEvents(RecordedPresses(presses)) == PressedEvents(presses)
  {
    var n := |presses|;
    if n > 0 {
      var recorded := RecordedPresses(presses);
      assert recorded[..n - 1] == RecordedPresses(presses[..n - 1]);
      PressedEventsIgnoreRecording(presses[..n - 1]);
      var last := presses[n - 1];
      assert PressEvents(last.name, Recorded(last.view), last.hovering) == PressEvents(last.name, last.view, last.hovering);
    }
  }


  lemma AppendAssoc<T>(a: seq<T>, b: seq<T>, c: seq<T>)
    ensures (a + b) + c == a + (b + c)
  {
  }

  // ---------------------------------------------------------------- the tool

  class Tool {
    const comp: Overlay
    var pins: seq<Pin>
    var collisions: seq<Collision>
    var showPins: bool
    var drag: Option<Anchor>

    /** Every pin belongs to this tool's overlay, and no pin is listed twice. */
    ghost predicate Valid()
      reads this
    {
      && (forall j :: 0 <= j < |pins| ==> pins[j].comp == comp)
      && (forall i, j :: 0 <= i < j < |pins| ==> pins[i] != pins[j])
    }

    /** `init_tool()`: no collisions, no pins, pins hidden, no drag. */
    constructor InitTool(comp: Overlay)
      ensures Valid()
      ensures this.comp == comp && pins == [] && collisions == [] && !showPins && drag.None?
    {
      this.comp := comp;
      pins := [];
      collisions := [];
      showPins := false;
      drag := None;
    }

    /** A concrete tool adds a pin it created for this overlay. */
    method AttachPin(p: Pin)
      requires Valid() && p.comp == comp && p !in pins
      modifies this
      ensures Valid()
      ensures pins == old(pins) + [p]
      ensures collisions == old(collisions) && showPins == old(showPins) && drag == old(drag)
    {
      pins := pins + [p];
    }

    /** `render_pins`: the pins drawn this frame, all of them when the tool is selected or hovered, else none. */
    function RenderPins(): (drawn: seq<Pin>)
      reads this, comp
      ensures comp.settings.selected || showPins ==> drawn == pins
      ensures !(comp.settings.selected || showPins) ==> drawn == []
    {
      if comp.settings.selected || showPins then pins else []
    }

    /** `set_state(name)`: ask the chart to store the tool's `$state`. */
    method SetState(name: string)
      modifies comp.log
      ensures comp.log.events == old(comp.log.events) + [ChangeState(name)]
    {
      comp.log.Emit(ChangeState(name));
    }

    /** `pre_draw()`: primitives register their collisions afresh on every frame. */
    method PreDraw()
      modifies this
      ensures collisions == [] && pins == old(pins) && showPins == old(showPins) && drag == old(drag)
    {
      collisions := [];
    }

    /** `remove_tool()`: only a selected tool asks to be removed. */
    method RemoveTool()
      modifies comp.log
      ensures comp.log.events == old(comp.log.events) + (if comp.settings.selected then [RemoveRequested] else [])
    {
      if comp.settings.selected {
        comp.log.Emit(RemoveRequested);
      }
    }

    /** The Delete and Backspace keys remove the tool. */
    method OnKey(key: string)
      modifies comp.log
      ensures comp.log.events == old(comp.log.events)
        + (if (key == "Delete" || key == "Backspace") && comp.settings.selected then [RemoveRequested] else [])
    {
      if key == "Delete" || key == "Backspace" {
        RemoveTool();
      }
    }

    /** `start_drag()`: lock scrolling, anchor the drag at the cursor and record every pin's position. */
    method StartDrag()
      requires Valid() && CursorPlaced(comp.cursor)
      modifies this, (set p | p in pins), comp.log
      ensures Valid() && pins == old(pins) && collisions == old(collisions) && showPins == old(showPins)
      ensures drag == Some(Anchor(comp.cursor.t.value, comp.cursor.value.value))
      ensures forall j :: 0 <= j < |pins| ==> pins[j].View() == Recorded(old(pins[j].View()))
      ensures comp.log.events == old(comp.log.events) + [ScrollLock(true)]
    {
      comp.log.Emit(ScrollLock(true));
      drag := Some(Anchor(comp.cursor.t.value, comp.cursor.value.value));
      var ps := pins;
      for j := 0 to |ps|
        modifies set p | p in ps
        invariant forall k :: 0 <= k < j ==> ps[k].View() == Recorded(old(ps[k].View()))
        invariant forall k :: j <= k < |ps| ==> ps[k].View() == old(ps[k].View())
      {
        ps[j].RecPosition();
      }
    }

    /** `drag_update()`: move every pin to its recorded position shifted by the cursor's displacement, reporting each. */
    method DragUpdate()
      requires Valid() && drag.Some? && CursorPlaced(comp.cursor)
      modifies (set p | p in pins), comp.log
      ensures forall j :: 0 <= j < |pins| ==>
        pins[j].View() == PlacedAt(old(pins[j].View()), comp.layout, DragTarget(old(pins[j].View()), drag.value, comp.cursor))
      ensures comp.log.events == old(comp.log.events)
        + DraggedEvents(NamesOf(pins), old(ViewsOf(pins)), drag.value, comp.cursor)
    {
      var ps := pins;
      var anchor := drag.value;
      ghost var before := ViewsOf(ps);
      ghost var names := NamesOf(ps);
      for j := 0 to |ps|
        invariant forall k :: 0 <= k < j ==>
          ps[k].View() == PlacedAt(before[k], comp.layout, DragTarget(before[k], anchor, comp.cursor))
        invariant forall k :: j <= k < |ps| ==> ps[k].View() == before[k]
        invariant comp.log.events == old(comp.log.events) + DraggedEvents(names[..j], before[..j], anchor, comp.cursor)
      {
        var target := DragTarget(ps[j].View(), anchor, comp.cursor);
        ps[j].UpdateFrom(Some(target), true);
        assert DraggedEvents(names[..j + 1], before[..j + 1], anchor, comp.cursor)
          == DraggedEvents(names[..j], before[..j], anchor, comp.cursor) + [ChangeSettings(names[j], target.0, target.1)];
        AppendAssoc(old(comp.log.events), DraggedEvents(names[..j], before[..j], anchor, comp.cursor), [ChangeSettings(names[j], target.0, target.1)]);
      }
      assert names[..|ps|] == names;
      assert before[..|ps|] == before;
    }

    /** The forced `mousedown` the tool forwards to one pin. */
    method PressPin(p: Pin)
      requires p.comp == comp
      modifies p, comp.log
      ensures p.View() == AfterPress(old(p.View()), Hovers(old(p.x), old(p.y), p.radiusSq, comp.mouseX, comp.mouseY))
      ensures comp.log.events == old(comp.log.events) + PressEvents(p.name, old(p.View()), Hovers(old(p.x), old(p.y), p.radiusSq, comp.mouseX, comp.mouseY))
    {
      var ignored := p.MouseDown(true, true);
    }

    /** The forced `mousedown` the tool forwards to each of the given pins in turn. */
    method PressEach(ps: seq<Pin>)
      requires forall k :: 0 <= k < |ps| ==> ps[k].comp == comp
      requires forall i, k :: 0 <= i < k < |ps| ==> ps[i] != ps[k]
      modifies (set p | p in ps), comp.log
      ensures forall k :: 0 <= k < |ps| ==>
        ps[k].View() == AfterPress(old(PressesOf(ps))[k].view, old(PressesOf(ps))[k].hovering)
      ensures comp.log.events == old(comp.log.events) + PressedEvents(old(PressesOf(ps)))
    {
      ghost var presses := PressesOf(ps);
      ghost var sent := comp.log.events;
      for j := 0 to |ps|
        invariant PressedUpTo(ps, j, presses, sent)
      {
        PressAt(ps, j, presses, sent);
      }
      assert presses[..|ps|] == presses;
    }

    /** The first `j` pins of `ps` were pressed and announced, in order; the rest are as they were. */
    ghost predicate PressedUpTo(ps: seq<Pin>, j: nat, presses: seq<Press>, sent: seq<Event>)
      reads this, comp, comp.log, set p | p in ps
    {
      && j <= |ps| == |presses|
      && (forall k :: 0 <= k < j ==> ps[k].View() == AfterPress(presses[k].view, presses[k].hovering))
      && (forall k :: j <= k < |ps| ==>
            presses[k] == Press(ps[k].name, ps[k].View(), Hovers(ps[k].x, ps[k].y, ps[k].radiusSq, comp.mouseX, comp.mouseY)))
      && comp.log.events == sent + PressedEvents(presses[..j])
    }

    /** One step of the `forEach`: the forced press of pin `j`. */
    method PressAt(ps: seq<Pin>, j: nat, ghost presses: seq<Press>, ghost sent: seq<Event>)
      requires j < |ps| && PressedUpTo(ps, j, presses, sent)
      requires forall k :: 0 <= k < |ps| ==> ps[k].comp == comp
      requires forall i, k :: 0 <= i < k < |ps| ==> ps[i] != ps[k]
      modifies ps[j], comp.log
      ensures PressedUpTo(ps, j + 1, presses, sent)
    {
      var p := ps[j];
      ghost var press := presses[j];
      ghost var announced := PressEvents(press.name, press.view, press.hovering);
      PressPin(p);
      assert comp.log.events == sent + PressedEvents(presses[..j]) + announced;
      assert presses[..j + 1][..j] == presses[..j];
      assert PressedEvents(presses[..j + 1]) == PressedEvents(presses[..j]) + announced;
      forall k | 0 <= k < |ps| && k != j
        ensures ps[k].View() == old(ps[k].View())
      {
        assert ps[k] != p;
      }
    }

    /**
     * The tool's `mousemove` handler: the pins are shown exactly while some
     * collision accepts the mouse, and a drag in progress moves the pins.
     */
    method MouseMove()
      requires Valid() && (drag.Some? ==> CursorPlaced(comp.cursor))
      modifies this, (set p | p in pins), comp.log
      ensures Valid() && pins == old(pins) && collisions == old(collisions) && drag == old(drag)
      ensures showPins <==> Hits(collisions, comp.mouseX, comp.mouseY)
      ensures drag.None? ==>
        (forall j :: 0 <= j < |pins| ==> pins[j].View() == old(pins[j].View())) && comp.log.events == old(comp.log.events)
      ensures drag.Some? ==>
        && (forall j :: 0 <= j < |pins| ==>
             pins[j].View() == PlacedAt(old(pins[j].View()), comp.layout, DragTarget(old(pins[j].View()), drag.value, comp.cursor)))
        && comp.log.events == old(comp.log.events) + DraggedEvents(NamesOf(pins), old(ViewsOf(pins)), drag.value, comp.cursor)
    {
      ghost var views := ViewsOf(pins);
      showPins := Hits(collisions, comp.mouseX, comp.mouseY);
      assert ViewsOf(pins) == views;
      if drag.Some? {
        DragUpdate();
      }
    }

    /** `start_drag()` followed by the forced press forwarded to every pin. */
    method TakeHold()
      requires Valid() && CursorPlaced(comp.cursor)
      modifies this, (set p | p in pins), comp.log
      ensures Valid() && pins == old(pins) && collisions == old(collisions) && showPins == old(showPins)
      ensures drag == Some(Anchor(comp.cursor.t.value, comp.cursor.value.value))
      ensures forall j :: 0 <= j < |pins| ==>
        pins[j].View() == AfterPress(Recorded(old(pins[j].View())), old(pins[j].Hover()))
      ensures comp.log.events == old(comp.log.events) + [ScrollLock(true)] + PressedEvents(old(PressesOf(pins)))
    {
      ghost var presses := PressesOf(pins);
      StartDrag();
      assert PressesOf(pins) == RecordedPresses(presses);
      PressEach(pins);
      PressedEventsIgnoreRecording(presses);
    }

    /**
     * The tool's `mousedown` handler. An event already handled, or a press
     * that no collision accepts, changes nothing. A hit selects the tool if
     * it is not selected yet, starts the drag, prevents the event's default
     * and forwards a forced press to every pin.
     */
    method MouseDown(prevented: bool) returns (preventDefault: bool)
      requires Valid() && (!prevented && Hits(collisions, comp.mouseX, comp.mouseY) ==> CursorPlaced(comp.cursor))
      modifies this, (set p | p in pins), comp.log
      ensures Valid() && pins == old(pins) && collisions == old(collisions) && showPins == old(showPins)
      ensures preventDefault <==> !prevented && Hits(collisions, comp.mouseX, comp.mouseY)
      ensures !preventDefault ==>
        && drag == old(drag)
        && (forall j :: 0 <= j < |pins| ==> pins[j].View() == old(pins[j].View()))
        && comp.log.events == old(comp.log.events)
      ensures preventDefault ==>
        && drag == Some(Anchor(comp.cursor.t.value, comp.cursor.value.value))
        && (forall j :: 0 <= j < |pins| ==>
             pins[j].View() == AfterPress(Recorded(old(pins[j].View())), old(pins[j].Hover())))
        && comp.log.events == old(comp.log.events)
             + (if comp.settings.selected then [] else [ObjectSelected])
             + [ScrollLock(true)]
             + PressedEvents(old(PressesOf(pins)))
    {
      if prevented || !Hits(collisions, comp.mouseX, comp.mouseY) {
        return false;
      }
      SelectAndHold();
      preventDefault := true;
    }

    /** The accepted press: select the overlay if it is not selected yet, then take hold of the pins. */
    method SelectAndHold()
      requires Valid() && CursorPlaced(comp.cursor)
      modifies this, (set p | p in pins), comp.log
      ensures Valid() && pins == old(pins) && collisions == old(collisions) && showPins == old(showPins)
      ensures drag == Some(Anchor(comp.cursor.t.value, comp.cursor.value.value))
      ensures forall j :: 0 <= j < |pins| ==>
        pins[j].View() == AfterPress(Recorded(old(pins[j].View())), old(pins[j].Hover()))
      ensures comp.log.events == old(comp.log.events)
        + (if comp.settings.selected then [] else [ObjectSelected])
        + [ScrollLock(true)]
        + PressedEvents(old(PressesOf(pins)))
    {
      ghost var presses := PressesOf(pins);
      if !comp.settings.selected {
        comp.log.Emit(ObjectSelected);
      }
      ghost var selecting := comp.log.events;
      assert selecting == old(comp.log.events) + (if comp.settings.selected then [] else [ObjectSelected]);
      assert PressesOf(pins) == presses;
      TakeHold();
      assert comp.log.events == selecting + [ScrollLock(true)] + PressedEvents(presses);
    }

    /** The tool's `mouseup` handler: end any drag and unlock scrolling. */
    method MouseUp()
      modifies this, comp.log
      ensures drag.None? && pins == old(pins) && collisions == old(collisions) && showPins == old(showPins)
      ensures comp.log.events == old(comp.log.events) + [ScrollLock(false)]
    {
      drag := None;
      comp.log.Emit(ScrollLock(false));
    }

    /** Every pin moves back to the position saved in the settings, when there is one. */
    method ReInitPins()
      requires Valid()
      modifies (set p | p in pins), comp.log
      ensures forall j :: 0 <= j < |pins| ==>
        pins[j].View() ==
          if pins[j].name in comp.settings.pinPositions
          then PlacedAt(old(pins[j].View()), comp.layout, comp.settings.pinPositions[pins[j].name])
          else old(pins[j].View())
      ensures comp.log.events == old(comp.log.events)
    {
      var ps := pins;
      for j := 0 to |ps|
        invariant forall k :: 0 <= k < j ==>
          ps[k].View() ==
            if ps[k].name in comp.settings.pinPositions
            then PlacedAt(old(ps[k].View()), comp.layout, comp.settings.pinPositions[ps[k].name])
            else old(ps[k].View())
        invariant forall k :: j <= k < |ps| ==> ps[k].View() == old(ps[k].View())
        invariant comp.log.events == old(comp.log.events)
      {
        ps[j].ReInit();
      }
    }

    /**
     * `watch_uuid(n, p)`: when the overlay's `$uuid` differs from the previous
     * settings', the pins re-read their saved positions and the collisions,
     * pin visibility and drag are reset; otherwise nothing changes.
     */
    method WatchUuid(previous: Settings)
      requires Valid()
      modifies this, (set p | p in pins), comp.log
      ensures Valid() && pins == old(pins) && comp.log.events == old(comp.log.events)
      ensures comp.settings.uuid == previous.uuid ==>
        && collisions == old(collisions) && showPins == old(showPins) && drag == old(drag)
        && forall j :: 0 <= j < |pins| ==> pins[j].View() == old(pins[j].View())
      ensures comp.settings.uuid != previous.uuid ==>
        && collisions == [] && !showPins && drag.None?
        && forall j :: 0 <= j < |pins| ==>
             pins[j].View() ==
               if pins[j].name in comp.settings.pinPositions
               then PlacedAt(old(pins[j].View()), comp.layout, comp.settings.pinPositions[pins[j].name])
               else old(pins[j].View())
    {
      if comp.settings.uuid != previous.uuid {
        ReInitPins();
        collisions := [];
        showPins := false;
        drag := None;
      }
    }
  }
}
