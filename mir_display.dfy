/**
 * The Mir display: the registry of windows by handle, the display-level
 * processing flag that new windows inherit, and the list of screens built
 * from the display configuration.  The Mir connection and the display
 * configuration query are Mir client calls: the configuration is a
 * parameter.
 */
module MirDisplay {
  import opened Basics
  import opened MirWindow

  /** One mode of a display output. */
  datatype DisplayMode = DisplayMode(horizontalResolution: Uint32, verticalResolution: Uint32)

  /** One output of the Mir display configuration. */
  datatype DisplayOutput = DisplayOutput(
    used: bool, positionX: Int32, positionY: Int32, modes: seq<DisplayMode>, currentMode: Uint32)

  /** A screen's bounds (`gfx::Rect`). */
  datatype Rect = Rect(x: int, y: int, width: int, height: int)

  /** The output's current mode indexes its mode array. */
  predicate HasCurrentMode(o: DisplayOutput) { o.currentMode < |o.modes| }

  /** Every used output has a current mode, which the screen list reads. */
  predicate UsedOutputsHaveModes(outputs: seq<DisplayOutput>) {
    forall i :: 0 <= i < |outputs| && outputs[i].used ==> HasCurrentMode(outputs[i])
  }

  /** The bounds of the screen for an output: its position and its current mode's size. */
  function ScreenBounds(o: DisplayOutput): Rect
    requires HasCurrentMode(o)
  {
    Rect(o.positionX, o.positionY,
         o.modes[o.currentMode].horizontalResolution, o.modes[o.currentMode].verticalResolution)
  }

  /** The screens of the used outputs, in output order. */
  function UsedScreens(outputs: seq<DisplayOutput>): seq<Rect>
    requires UsedOutputsHaveModes(outputs)
  {
    if outputs == [] then []
    else
      assert UsedOutputsHaveModes(outputs[1..]) by {
        forall i | 0 <= i < |outputs[1..]| && outputs[1..][i].used ensures HasCurrentMode(outputs[1..][i]) {
          assert outputs[1..][i] == outputs[i + 1];
        }
      }
      (if outputs[0].used then [ScreenBounds(outputs[0])] else []) + UsedScreens(outputs[1..])
  }

  /** Building the screen list distributes over concatenation of output lists. */
  lemma {:induction false} UsedScreensAppend(a: seq<DisplayOutput>, b: seq<DisplayOutput>)
    requires UsedOutputsHaveModes(a) && UsedOutputsHaveModes(b)
    ensures UsedOutputsHaveModes(a + b)
    ensures UsedScreens(a + b) == UsedScreens(a) + UsedScreens(b)
  {
    assert UsedOutputsHaveModes(a + b) by {
      forall i | 0 <= i < |a + b| && (a + b)[i].used ensures HasCurrentMode((a + b)[i]) {
        if i < |a| {
          assert (a + b)[i] == a[i];
        } else {
          assert (a + b)[i] == b[i - |a|];
        }
      }
    }
    if a == [] {
      assert a + b == b;
    } else {
      assert (a + b)[1..] == a[1..] + b;
      assert UsedOutputsHaveModes(a[1..]) by {
        forall i | 0 <= i < |a[1..]| && a[1..][i].used ensures HasCurrentMode(a[1..][i]) {
          assert a[1..][i] == a[i + 1];
        }
      }
      UsedScreensAppend(a[1..], b);
    }
  }

  /**
   * Every screen comes from a used output and every used output gives a
   * screen; there are at most as many screens as outputs, and no screen at
   * all exactly when no output is used.
   */
  lemma {:induction false} UsedScreensContents(outputs: seq<DisplayOutput>)
    requires UsedOutputsHaveModes(outputs)
    ensures |UsedScreens(outputs)| <= |outputs|
    ensures forall i :: 0 <= i < |outputs| && outputs[i].used ==> ScreenBounds(outputs[i]) in UsedScreens(outputs)
    ensures forall r :: r in UsedScreens(outputs) ==>
      exists i :: 0 <= i < |outputs| && outputs[i].used && r == ScreenBounds(outputs[i])
    ensures UsedScreens(outputs) == [] <==> forall i :: 0 <= i < |outputs| ==> !outputs[i].used
  {
    if outputs != [] {
      var tail := outputs[1..];
      assert UsedOutputsHaveModes(tail) by {
        forall i | 0 <= i < |tail| && tail[i].used ensures HasCurrentMode(tail[i]) {
          assert tail[i] == outputs[i + 1];
        }
      }
      UsedScreensContents(tail);
      forall i | 0 <= i < |outputs| && outputs[i].used
        ensures ScreenBounds(outputs[i]) in UsedScreens(outputs)
      {
        if i > 0 {
          assert outputs[i] == tail[i - 1];
        }
      }
      forall r | r in UsedScreens(outputs)
        ensures exists i :: 0 <= i < |outputs| && outputs[i].used && r == ScreenBounds(outputs[i])
      {
        if r in UsedScreens(tail) {
          var j :| 0 <= j < |tail| && tail[j].used && r == ScreenBounds(tail[j]);
          assert outputs[j + 1] == tail[j];
        } else {
          assert outputs[0].used && r == ScreenBounds(outputs[0]);
        }
      }
      if forall i :: 0 <= i < |outputs| ==> !outputs[i].used {
        assert forall i :: 0 <= i < |tail| ==> !tail[i].used by {
          forall i | 0 <= i < |tail| ensures !tail[i].used {
            assert tail[i] == outputs[i + 1];
          }
        }
      }
    }
  }

  /** The first screen is that of the first used output. */
  lemma {:induction false} FirstScreenIsFirstUsedOutput(outputs: seq<DisplayOutput>, i: nat)
    requires UsedOutputsHaveModes(outputs)
    requires i < |outputs| && outputs[i].used
    requires forall j :: 0 <= j < i ==> !outputs[j].used
    ensures UsedScreens(outputs) != [] && UsedScreens(outputs)[0] == ScreenBounds(outputs[i])
  {
    if i > 0 {
      var tail := outputs[1..];
      assert UsedOutputsHaveModes(tail) by {
        forall k | 0 <= k < |tail| && tail[k].used ensures HasCurrentMode(tail[k]) {
          assert tail[k] == outputs[k + 1];
        }
      }
      forall j | 0 <= j < i - 1 ensures !tail[j].used {
        assert tail[j] == outputs[j + 1];
      }
      FirstScreenIsFirstUsedOutput(tail, i - 1);
    }
  }

  /** The window-state changes the host requests. */
  datatype WidgetState =
    | Create | Fullscreen | Maximized | Minimized | Restore
    | Active | Inactive | Show | Hide | Resize | Destroyed

  class Display {
    /** Windows by handle; `null` entries are those that a lookup of an absent handle inserted. */
    var windowMap: map<Uint32, Window?>
    var screenList: seq<Rect>
    /** Whether StartProcessingEvents is in effect; new windows start processing when it is. */
    var processingEvents: bool

    /** The windows the map refers to. */
    ghost function Windows(): set<Window>
      reads this
    {
      set w: Window | w in windowMap.Values
    }

    /** Every window is filed under its own handle. */
    ghost predicate Valid()
      reads this
    {
      forall k :: k in windowMap && windowMap[k] != null ==> windowMap[k].handle == k
    }

    constructor (outputs: seq<DisplayOutput>)
      requires UsedOutputsHaveModes(outputs)
      ensures Valid()
      ensures windowMap == map[] && !processingEvents && screenList == UsedScreens(outputs)
    {
      windowMap := map[];
      screenList := [];
      processingEvents := false;
      new;
      UpdateScreenList(outputs);
    }

    /** Rebuilds the screen list from the current display configuration. */
    method UpdateScreenList(outputs: seq<DisplayOutput>)
      requires UsedOutputsHaveModes(outputs)
      modifies this`screenList
      ensures screenList == UsedScreens(outputs)
    {
      screenList := [];
      var i := 0;
      while i < |outputs|
        invariant 0 <= i <= |outputs|
        invariant UsedOutputsHaveModes(outputs[..i])
        invariant screenList == UsedScreens(outputs[..i])
      {
        var output := outputs[i];
        assert UsedOutputsHaveModes([output]);
        UsedScreensAppend(outputs[..i], [output]);
        assert outputs[..i + 1] == outputs[..i] + [output];
        if output.used {
          screenList := screenList + [ScreenBounds(output)];
        }
        i := i + 1;
      }
      assert outputs[..|outputs|] == outputs;
    }

    /** The first screen, or null when there is none. */
    function PrimaryScreen(): Option<Rect>
      reads this
    {
      if screenList == [] then None else Some(screenList[0])
    }

    /** The configuration-change callback refreshes the screens only while processing. */
    method OnDisplayConfigurationChanged(outputs: seq<DisplayOutput>)
      requires UsedOutputsHaveModes(outputs)
      modifies this`screenList
      ensures processingEvents ==> screenList == UsedScreens(outputs)
      ensures !processingEvents ==> screenList == old(screenList)
    {
      if processingEvents {
        UpdateScreenList(outputs);
      }
    }

    /** Creates a window for handle `w`, filed under `w` over any earlier entry. */
    method CreateAcceleratedSurface(w: Uint32) returns (win: Window)
      requires Valid()
      modifies this`windowMap
      ensures Valid()
      ensures fresh(win) && win.handle == w && win.surfaceValid
      ensures win.processingEvents == processingEvents && win.handlerRegistered == processingEvents
      ensures windowMap == old(windowMap)[w := win]
    {
      win := new Window(w);
      if processingEvents {
        win.StartProcessingEvents();
      }
      windowMap := windowMap[w := win];
    }

    /** `window_map_[w]`: looks a window up, inserting a null entry for an absent handle. */
    method GetWindow(w: Uint32) returns (win: Window?)
      requires Valid()
      modifies this`windowMap
      ensures Valid()
      ensures w in old(windowMap) ==> win == old(windowMap)[w] && windowMap == old(windowMap)
      ensures w !in old(windowMap) ==> win == null && windowMap == old(windowMap)[w := null]
    {
      if w !in windowMap {
        windowMap := windowMap[w := null];
      }
      win := windowMap[w];
    }

    /** Deletes the window filed under `w`, if any, and removes the entry for `w`. */
    method DestroyWindow(w: Uint32)
      requires Valid()
      modifies this`windowMap, Windows()
      ensures Valid()
      ensures windowMap == old(windowMap) - {w}
      ensures w in old(windowMap) && old(windowMap)[w] != null ==> !old(windowMap)[w].surfaceValid
      ensures forall x :: x in old(Windows()) ==>
        x.processingEvents == old(x.processingEvents) && x.handlerRegistered == old(x.handlerRegistered)
      ensures forall x :: x in old(Windows()) && (w !in old(windowMap) || x != old(windowMap)[w]) ==>
        x.surfaceValid == old(x.surfaceValid)
    {
      var win := GetWindow(w);
      if win != null {
        win.Release();
      }
      windowMap := windowMap - {w};
    }

    /** Deletes every window and empties the map. */
    method ClearWindowMap()
      modifies this`windowMap, Windows()
      ensures windowMap == map[]
      ensures forall x :: x in old(Windows()) ==>
        (!x.surfaceValid && x.processingEvents == old(x.processingEvents)
         && x.handlerRegistered == old(x.handlerRegistered))
    {
      var pending := windowMap.Keys;
      while pending != {}
        invariant pending <= windowMap.Keys
        invariant windowMap == old(windowMap)
        invariant forall k :: k in windowMap && k !in pending && windowMap[k] != null ==> !windowMap[k].surfaceValid
        invariant forall x :: x in old(Windows()) ==>
          x.processingEvents == old(x.processingEvents) && x.handlerRegistered == old(x.handlerRegistered)
        decreases pending
      {
        var k :| k in pending;
        var win := windowMap[k];
        if win != null {
          win.Release();
        }
        pending := pending - {k};
      }
      ghost var m := windowMap;
      assert forall x :: x in old(Windows()) ==> exists k :: k in m && m[k] == x;
      windowMap := map[];
    }

    /** Starts processing on the display and on every window; the map is unchanged. */
    method StartProcessingEvents()
      requires Valid() && null !in windowMap.Values
      modifies this`processingEvents, Windows()
      ensures processingEvents
      ensures forall x :: x in Windows() ==>
        (x.processingEvents && x.handlerRegistered && x.surfaceValid == old(x.surfaceValid))
    {
      processingEvents := true;
      var pending := windowMap.Keys;
      while pending != {}
        invariant pending <= windowMap.Keys
        invariant processingEvents
        invariant forall k :: k in windowMap && k !in pending ==>
          windowMap[k] != null && windowMap[k].processingEvents && windowMap[k].handlerRegistered
        invariant forall x :: x in Windows() ==> x.surfaceValid == old(x.surfaceValid)
        decreases pending
      {
        var k :| k in pending;
        var win := windowMap[k];
        win.StartProcessingEvents();
        pending := pending - {k};
      }
      assert forall x :: x in Windows() ==> exists k :: k in windowMap && windowMap[k] == x;
    }

    /** Stops processing on the display and on every window; the map is unchanged. */
    method StopProcessingEvents()
      requires Valid() && null !in windowMap.Values
      modifies this`processingEvents, Windows()
      ensures !processingEvents
      ensures forall x :: x in Windows() ==>
        (!x.processingEvents && x.handlerRegistered == old(x.handlerRegistered)
         && x.surfaceValid == old(x.surfaceValid))
    {
      processingEvents := false;
      var pending := windowMap.Keys;
      while pending != {}
        invariant pending <= windowMap.Keys
        invariant !processingEvents
        invariant forall k :: k in windowMap && k !in pending ==>
          windowMap[k] != null && !windowMap[k].processingEvents
        invariant forall x :: x in Windows() ==>
          x.handlerRegistered == old(x.handlerRegistered) && x.surfaceValid == old(x.surfaceValid)
        decreases pending
      {
        var k :| k in pending;
        var win := windowMap[k];
        win.StopProcessingEvents();
        pending := pending - {k};
      }
      assert forall x :: x in Windows() ==> exists k :: k in windowMap && windowMap[k] == x;
    }
  

    /**
     * The host's window-state request for handle `w`.  The window setters
     * are Mir client calls and leave the model's state alone; the states
     * whose branch dereferences the looked-up window need a window there.
     */
    method SetWidgetState(w: Uint32, state: WidgetState, width: Uint32, height: Uint32)
      requires Valid()
      requires DereferencesWindow(state) ==> w in windowMap && windowMap[w] != null
      modifies this`windowMap, this`processingEvents, Windows()
      ensures Valid()
      ensures state.Create? ==>
        (w in windowMap && windowMap[w] != null && fresh(windowMap[w])
         && windowMap == old(windowMap)[w := windowMap[w]]
         && windowMap[w].processingEvents == processingEvents
         && windowMap[w].surfaceValid && windowMap[w].handlerRegistered == processingEvents
         && processingEvents == old(processingEvents))
      ensures state.Resize? ==>
        (processingEvents == old(processingEvents)
         && windowMap == (if w in old(windowMap) then old(windowMap) else old(windowMap)[w := null]))
      ensures state.Destroyed? ==>
        (windowMap == old(windowMap) - {w}
         && processingEvents == (old(processingEvents) && windowMap != map[]))
      ensures !state.Create? && !state.Resize? && !state.Destroyed? ==>
        windowMap == old(windowMap) && processingEvents == old(processingEvents)
      ensures forall x :: x in old(Windows()) ==>
        (x.processingEvents == old(x.processingEvents) && x.handlerRegistered == old(x.handlerRegistered))
      ensures forall x :: x in old(Windows()) && !(state.Destroyed? && w in old(windowMap) && x == old(windowMap)[w]) ==>
        x.surfaceValid == old(x.surfaceValid)
      ensures state.Destroyed? && w in old(windowMap) && old(windowMap)[w] != null ==> !old(windowMap)[w].surfaceValid
    {
      match state {
        case Create =>
          var created := CreateAcceleratedSurface(w);
        case Fullscreen =>
          var widget := GetWindow(w);
        case Maximized =>
          var widget := GetWindow(w);
        case Minimized =>
          var widget := GetWindow(w);
        case Restore =>
          var widget := GetWindow(w);
        case Active =>
        case Inactive =>
        case Show =>
        case Hide =>
        case Resize =>
          var window := GetWindow(w);
        case Destroyed =>
          DestroyWindow(w);
          if windowMap == map[] {
            StopProcessingEvents();
          }
      }
    }
  }

  /**
   * The states whose branch reads the looked-up window: their setters use
   * its surface.  RESIZE also calls through the pointer, but `Resize` is
   * non-virtual and never reads the window, so it needs none.
   */
  predicate DereferencesWindow(state: WidgetState) {
    state.Fullscreen? || state.Maximized? || state.Minimized? || state.Restore?
  }

  /**
   * Once the screen list is built from a configuration, the primary screen
   * is absent exactly when no output is used, and otherwise it is the
   * screen of the first used output.
   */
  lemma PrimaryScreenOfConfiguration(d: Display, outputs: seq<DisplayOutput>)
    requires UsedOutputsHaveModes(outputs)
    requires d.screenList == UsedScreens(outputs)
    ensures d.PrimaryScreen().None? <==> forall i :: 0 <= i < |outputs| ==> !outputs[i].used
    ensures forall i :: 0 <= i < |outputs| && outputs[i].used && (forall j :: 0 <= j < i ==> !outputs[j].used) ==>
      d.PrimaryScreen() == Some(ScreenBounds(outputs[i]))
  {
    UsedScreensContents(outputs);
    forall i | 0 <= i < |outputs| && outputs[i].used && (forall j :: 0 <= j < i ==> !outputs[j].used)
      ensures d.PrimaryScreen() == Some(ScreenBounds(outputs[i]))
    {
      FirstScreenIsFirstUsedOutput(outputs, i);
    }
  }
}
