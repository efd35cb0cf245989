/**
 * A Mir surface as seen by the host: the processing gate and the
 * translation of Mir input events into calls on the host's event sink.
 * Surface creation, state and geometry are Mir client calls and are not
 * modelled.  Mir's enumerator values are those of `mir_toolkit/event.h`,
 * which is not part of this model.
 */
module MirWindow {
  import opened Basics
  import opened UiEvents
  import opened Keysyms
  import opened KeyboardEngineXkb

  // Mir key modifiers (MirKeyModifier)
  const MirKeyModifierShift: bv32 := 0x0000_0001
  const MirKeyModifierAlt: bv32 := 0x0000_0002
  const MirKeyModifierCtrl: bv32 := 0x0000_1000
  const MirKeyModifierMeta: bv32 := 0x0001_0000
  const MirKeyModifierCapsLock: bv32 := 0x0010_0000

  // Mir event types (MirEventType)
  const MirEventTypeKey: Int32 := 0
  const MirEventTypeMotion: Int32 := 1

  // Mir key actions (MirKeyAction)
  const MirKeyActionDown: Int32 := 0

  // Mir motion actions (MirMotionAction)
  const MirMotionActionDown: Int32 := 0
  const MirMotionActionUp: Int32 := 1
  const MirMotionActionMove: Int32 := 2
  const MirMotionActionHoverEnter: Int32 := 9
  const MirMotionActionHoverExit: Int32 := 10

  // Mir motion buttons (MirMotionButton)
  const MirMotionButtonPrimary: Int32 := 1
  const MirMotionButtonSecondary: Int32 := 2
  const MirMotionButtonTertiary: Int32 := 4

  /**
   * Host modifier flags for a Mir modifier mask: shift, ctrl, meta and caps
   * lock become SHIFT, CONTROL, ALT and CAPS_LOCK; every other Mir bit
   * (Mir's own alt bit among them) is dropped.
   */
  function TranslateMirModifiers(mirModifiers: bv32): (ui: bv32)
    ensures ui & !KeyboardFlags == 0
    ensures (ui & EF_SHIFT_DOWN != 0) <==> (mirModifiers & MirKeyModifierShift != 0)
    ensures (ui & EF_CONTROL_DOWN != 0) <==> (mirModifiers & MirKeyModifierCtrl != 0)
    ensures (ui & EF_ALT_DOWN != 0) <==> (mirModifiers & MirKeyModifierMeta != 0)
    ensures (ui & EF_CAPS_LOCK_DOWN != 0) <==> (mirModifiers & MirKeyModifierCapsLock != 0)
  {
    var m0: bv32 := 0;
    var m1 := if mirModifiers & MirKeyModifierShift != 0 then m0 | EF_SHIFT_DOWN else m0;
    var m2 := if mirModifiers & MirKeyModifierCtrl != 0 then m1 | EF_CONTROL_DOWN else m1;
    var m3 := if mirModifiers & MirKeyModifierMeta != 0 then m2 | EF_ALT_DOWN else m2;
    if mirModifiers & MirKeyModifierCapsLock != 0 then m3 | EF_CAPS_LOCK_DOWN else m3
  }

  /** No Mir modifier gives no flag, and Mir's alt bit on its own gives no flag either. */
  lemma TranslateNoneAndAlt()
    ensures TranslateMirModifiers(0) == 0
    ensures TranslateMirModifiers(MirKeyModifierAlt) == 0
  {
  }

  /** The motion member of the Mir event union (pointer 0's coordinates). */
  datatype MotionView = MotionView(action: Int32, buttonState: Int32, x: real, y: real)

  /** The key member of the Mir event union. */
  datatype KeyView = KeyView(action: Int32, keyCode: Int32, modifiers: bv32)

  /**
   * A Mir event: its type tag and both views of the union that follows it.
   * Only the view the tag names holds a meaningful value; the other is
   * whatever the same bytes read as.
   */
  datatype MirEvent = MirEvent(eventType: Int32, motion: MotionView, key: KeyView)

  /** Calls on the host's event sink. `None` stands for an indeterminate argument. */
  datatype SinkCall =
    | ButtonNotify(handle: Uint32, kind: EventType, flags: Option<bv32>, x: real, y: real)
    | MotionNotify(x: real, y: real)
    | PointerEnter(handle: Uint32, x: real, y: real)
    | PointerLeave(handle: Uint32, x: real, y: real)
    | KeyNotify(kind: EventType, code: Option<Keysym>, modifiers: bv32)

  /** The button flag of a pointer press or release; None where the local is left uninitialised. */
  function ButtonFlags(buttonState: Int32): Option<bv32>
  {
    if buttonState == MirMotionButtonPrimary then Some(EF_LEFT_MOUSE_BUTTON)
    else if buttonState == MirMotionButtonSecondary then Some(EF_RIGHT_MOUSE_BUTTON)
    else if buttonState == MirMotionButtonTertiary then Some(EF_MIDDLE_MOUSE_BUTTON)
    else None
  }

  /** The calls the motion case emits before it falls through into the key case. */
  function MotionCalls(handle: Uint32, m: MotionView): (calls: seq<SinkCall>)
    ensures |calls| <= 1
  {
    if m.action == MirMotionActionDown || m.action == MirMotionActionUp then
      var kind := if m.action == MirMotionActionDown then MousePressed else MouseReleased;
      [ButtonNotify(handle, kind, ButtonFlags(m.buttonState), m.x, m.y)]
    else if m.action == MirMotionActionMove then
      [MotionNotify(m.x, m.y)]
    else if m.action == MirMotionActionHoverEnter then
      [PointerEnter(handle, m.x, m.y)]
    else if m.action == MirMotionActionHoverExit then
      [PointerLeave(handle, m.x, m.y)]
    else
      []
  }

  /** The call the key case emits, from the key view of the union. */
  function KeyCall(codes: OzoneCodes, k: KeyView): SinkCall
  {
    KeyNotify(if k.action == MirKeyActionDown then KeyPressed else KeyReleased,
              NormalizeKey(codes, ToUnsigned(k.keyCode)),
              TranslateMirModifiers(k.modifiers))
  }

  /**
   * The calls the event switch emits for one event.  The motion case has no
   * `break`, so every motion event also runs the key case on the key view.
   */
  function EventCalls(codes: OzoneCodes, handle: Uint32, ev: MirEvent): (calls: seq<SinkCall>)
    ensures |calls| <= 2
    ensures calls == [] <==> ev.eventType != MirEventTypeMotion && ev.eventType != MirEventTypeKey
    ensures calls != [] ==> calls[|calls| - 1] == KeyCall(codes, ev.key)
  {
    if ev.eventType == MirEventTypeMotion then
      MotionCalls(handle, ev.motion) + [KeyCall(codes, ev.key)]
    else if ev.eventType == MirEventTypeKey then
      [KeyCall(codes, ev.key)]
    else
      []
  }

  /** A pointer press or release: one ButtonNotify, then the fall-through KeyNotify. */
  lemma MotionButtonEvent(codes: OzoneCodes, handle: Uint32, ev: MirEvent)
    requires ev.eventType == MirEventTypeMotion
    requires ev.motion.action == MirMotionActionDown || ev.motion.action == MirMotionActionUp
    ensures |EventCalls(codes, handle, ev)| == 2
    ensures var c := EventCalls(codes, handle, ev)[0];
      c.ButtonNotify? && c.handle == handle && c.x == ev.motion.x && c.y == ev.motion.y
      && (c.kind == MousePressed <==> ev.motion.action == MirMotionActionDown)
      && (c.flags.None? <==> ev.motion.buttonState !in {MirMotionButtonPrimary, MirMotionButtonSecondary, MirMotionButtonTertiary})
    ensures ev.motion.buttonState == MirMotionButtonPrimary ==> EventCalls(codes, handle, ev)[0].flags == Some(EF_LEFT_MOUSE_BUTTON)
    ensures ev.motion.buttonState == MirMotionButtonSecondary ==> EventCalls(codes, handle, ev)[0].flags == Some(EF_RIGHT_MOUSE_BUTTON)
    ensures ev.motion.buttonState == MirMotionButtonTertiary ==> EventCalls(codes, handle, ev)[0].flags == Some(EF_MIDDLE_MOUSE_BUTTON)
  {
  }

  /** Move, hover-enter and hover-exit each emit their one pointer call before the fall-through KeyNotify. */
  lemma MotionPointerEvent(codes: OzoneCodes, handle: Uint32, ev: MirEvent)
    requires ev.eventType == MirEventTypeMotion
    ensures ev.motion.action == MirMotionActionMove ==>
      EventCalls(codes, handle, ev) == [MotionNotify(ev.motion.x, ev.motion.y), KeyCall(codes, ev.key)]
    ensures ev.motion.action == MirMotionActionHoverEnter ==>
      EventCalls(codes, handle, ev) == [PointerEnter(handle, ev.motion.x, ev.motion.y), KeyCall(codes, ev.key)]
    ensures ev.motion.action == MirMotionActionHoverExit ==>
      EventCalls(codes, handle, ev) == [PointerLeave(handle, ev.motion.x, ev.motion.y), KeyCall(codes, ev.key)]
    ensures ev.motion.action !in {MirMotionActionDown, MirMotionActionUp, MirMotionActionMove,
                                  MirMotionActionHoverEnter, MirMotionActionHoverExit} ==>
      EventCalls(codes, handle, ev) == [KeyCall(codes, ev.key)]
  {
  }

  /** A key event emits exactly one KeyNotify: pressed iff the action is down, normalised code, translated modifiers. */
  lemma KeyEvent(codes: OzoneCodes, handle: Uint32, ev: MirEvent)
    requires ev.eventType == MirEventTypeKey
    ensures EventCalls(codes, handle, ev)
      == [KeyNotify(if ev.key.action == MirKeyActionDown then KeyPressed else KeyReleased,
                    NormalizeKey(codes, ToUnsigned(ev.key.keyCode)),
                    TranslateMirModifiers(ev.key.modifiers))]
  {
  }

  /** The host's event sink, as the sequence of calls it has received. */
  class EventSink {
    var calls: seq<SinkCall>

    constructor ()
      ensures calls == []
    {
      calls := [];
    }
  }

  class Window {
    const handle: Uint32
    /** Whether events reaching HandleEvent are passed on to the sink. */
    var processingEvents: bool
    /** Whether HandleEvent has been installed as the surface's event handler. */
    var handlerRegistered: bool
    /** Whether the Mir surface is still held (false once the window is deleted). */
    var surfaceValid: bool

    constructor (handle: Uint32)
      ensures this.handle == handle
      ensures !processingEvents && !handlerRegistered && surfaceValid
    {
      this.handle := handle;
      processingEvents := false;
      handlerRegistered := false;
      surfaceValid := true;
    }

    method StartProcessingEvents()
      modifies this
      ensures processingEvents && handlerRegistered && surfaceValid == old(surfaceValid)
    {
      processingEvents := true;
      handlerRegistered := true;
    }

    method StopProcessingEvents()
      modifies this
      ensures !processingEvents
      ensures handlerRegistered == old(handlerRegistered) && surfaceValid == old(surfaceValid)
    {
      processingEvents := false;
    }

    /** The destructor: the surface is released. */
    method Release()
      modifies this
      ensures !surfaceValid
      ensures processingEvents == old(processingEvents) && handlerRegistered == old(handlerRegistered)
    {
      surfaceValid := false;
    }

    /** The surface's event callback: the calls it makes on the sink, or none while not processing. */
    method HandleEvent(codes: OzoneCodes, ev: MirEvent, sink: EventSink)
      modifies sink
      ensures !processingEvents ==> sink.calls == old(sink.calls)
      ensures processingEvents ==> sink.calls == old(sink.calls) + EventCalls(codes, handle, ev)
    {
      if !processingEvents {
        return;
      }
      if ev.eventType == MirEventTypeMotion {
        var mev := ev.motion;
        if mev.action == MirMotionActionDown || mev.action == MirMotionActionUp {
          var flags: Option<bv32> := None;
          if mev.buttonState == MirMotionButtonPrimary {
            flags := Some(EF_LEFT_MOUSE_BUTTON);
          } else if mev.buttonState == MirMotionButtonSecondary {
            flags := Some(EF_RIGHT_MOUSE_BUTTON);
          } else if mev.buttonState == MirMotionButtonTertiary {
            flags := Some(EF_MIDDLE_MOUSE_BUTTON);
          }
          var kind := if mev.action == MirMotionActionDown then MousePressed else MouseReleased;
          sink.calls := sink.calls + [ButtonNotify(handle, kind, flags, mev.x, mev.y)];
        } else if mev.action == MirMotionActionMove {
          sink.calls := sink.calls + [MotionNotify(mev.x, mev.y)];
        } else if mev.action == MirMotionActionHoverEnter {
          sink.calls := sink.calls + [PointerEnter(handle, mev.x, mev.y)];
        } else if mev.action == MirMotionActionHoverExit {
          sink.calls := sink.calls + [PointerLeave(handle, mev.x, mev.y)];
        }
        // no break: control falls into the key case
      }
      if ev.eventType == MirEventTypeMotion || ev.eventType == MirEventTypeKey {
        var kev := ev.key;
        var kind := if kev.action == MirKeyActionDown then KeyPressed else KeyReleased;
        sink.calls := sink.calls + [KeyNotify(kind, NormalizeKey(codes, ToUnsigned(kev.keyCode)),
                                        TranslateMirModifiers(kev.modifiers))];
      }
    }
  }
}
