# Ozone-Mir input and display core, modelled in Dafny

This project models the decision logic of the Chromium Ozone platform layer for Mir and Wayland as four pieces.

- **XKB keyboard engine** (`keyboard_engine_xkb.dfy`).
  - `NormalizeKey` maps an xkbcommon keysym to the host's Ozone key code. It has five range branches, the first of which returns letters and digits unchanged, and an alias switch.
  - The engine keeps a modifier cache. `OnKeyModifiers` fills it.
  - `ConvertKeyCodeFromEvdev` keeps a one-entry keysym cache.
  - `IgnoreKeyNotify` decides which key releases are dropped.
  - Init and fini bookkeeping tracks the xkbcommon handles.
- **Mir window** (`mir_window.dfy`).
  - The `processing_events_` gate.
  - `TranslateMirModifiers`.
  - The event callback, as the sequence of calls it makes on the host's event sink.
- **Mir display** (`mir_display.dfy`).
  - The registry of windows by handle, a map whose entries can be null.
  - The display-level processing flag, which new windows inherit.
  - `SetWidgetState`.
  - The screen list built from the used outputs of the display configuration.
- **Wayland display poll thread** (`display_poll_thread.dfy`).
  - Creation of a close-on-exec epoll descriptor (`setCloExecOrClose`, `osEpollCreateCloExec`).
  - The thread's `active_`/`epoll_fd_` bookkeeping.
  - `DisplayRun`. It is the loop that dispatches pending events, tests `active_`, flushes, waits, tests `active_` again, and handles each readiness entry. It keeps the epoll interest for the display descriptor and decides when the loop ends.

`basics.dfy` holds `Option` and the 32-bit integer types. `ui_events.dfy` holds the host's event flags and event kinds. `keysyms.dfy` holds keysym values and the alias table of `NormalizeKey`.

Foreign libraries are not modelled; their answers are parameters:
- xkbcommon, the Mir client library, libwayland and the kernel (`epoll`, `fcntl`, `close`, `mmap`);
- the values of the `OZONE*` key codes, which are in a header that is not part of this model. `NormalizeKey` takes them as a table (`OzoneCodes`).

Some of these calls are recorded in a trace. The others are represented by parameters or flags:
- `xkbCalls` on the keyboard engine records the context, keymap and state calls: creation, `xkb_state_update_mask`, `xkb_key_get_syms` and the three unrefs. The four `xkb_state_mod_name_is_active` queries are not traced; their answers are the parameter `effective` of `OnKeyModifiers`.
- `mmap` and `munmap` of the keymap file are not traced. Their outcome is the parameter `mapped` of `OnKeyboardKeymap`.
- `EventSink.calls` records the calls the event converter makes on the host's event sink.
- The Mir client calls are not traced. The effect of `mir_connection_create_surface_sync`, `mir_surface_release_sync` and `mir_surface_set_event_handler` shows in the window flags `surfaceValid` and `handlerRegistered`. The configuration that `mir_connection_create_display_config` returns is the parameter `outputs`, and `mir_display_config_destroy` is not modelled.
- `sysCalls` on the poll thread records `fcntl`, `close`, `epoll_create1`, `epoll_create` and `epoll_ctl`. `wl_display_get_fd` in `StartProcessingEvents` is not traced, and the registration call does not carry the display descriptor.
- The `PollCall` sequence records the libwayland and epoll calls of the poll loop, `wl_display_get_fd` among them.

Constant values come from headers that are not part of this model. The model uses the published values:
- xkbcommon's keysym values;
- Mir's `mir_toolkit/event.h` enumerators;
- Chromium's `ui::EventFlags`;
- the Linux values of `EPOLL*`, `EAGAIN`, `EINVAL`, `EPOLL_CLOEXEC` and `FD_CLOEXEC`.

Two places in the C++ code have no defined value, and the model makes them explicit:
- `NormalizeKey` can flow off the end of its switch without a `return` (ui/ime/keyboard_engine_xkb.cc:424-428). In C++ that is undefined behaviour. The model gives `None` there. Where the engine stores that result in its cache, the model stands in a caller-chosen value, the parameter `indeterminate`.
- A press or release with an unknown button passes uninitialised button flags (mir/mir_window.cc:176-185). The model gives `None` for them.

Two behaviours of the code are easy to miss, and the model keeps both:
- **Mir event switch.** The motion case of the switch in `MirWindow::HandleEvent` has no `break` (mir/mir_window.cc:204). So every motion event also produces a `KeyNotify` built from the key view of the event union, and the model's `EventCalls` ends every motion event with it.
- **Keysym cache.** `ConvertKeyCodeFromEvdev` looks the keysym up and discards it (ui/ime/keyboard_engine_xkb.cc:100-110). The cache is refilled with `NormalizeKey` of the previously cached keysym. `FirstConversionIgnoresKeymap` shows it: on a fresh engine the first conversion of almost any code yields `OZONECHARCODE_NULL`, whatever the keymap says.

## Model

| member | source | states |
|---|---|---|
| Basics.AddWrap | ui/ime/keyboard_engine_xkb.cc:100 | unsigned 32-bit addition: the sum when it fits, otherwise the sum minus 2^32 (smaller than the first operand) |
| Basics.ToUnsigned | mir/mir_window.cc:208 | the 32-bit pattern of a signed key code: the value itself when non-negative, the value plus 2^32 when negative |
| Keysyms.AliasTarget | ui/ime/keyboard_engine_xkb.cc:194-426 | the alias switch as a table: each case label's keysym gives its Ozone key name, and every other keysym gives none; the groups are stated by PeriodAliases, DeleteAliases, TabAliases, NoSymbolIsNull and EmptysetIsUnicode |
| KeyboardEngineXkb.NormalizeKey | ui/ime/keyboard_engine_xkb.cc:176-428 | there is no result exactly when the keysym lies in none of the five ranges and hits no case label; letters and digits map to themselves |
| KeyboardEngineXkb.KeypadDigitIsDigit | ui/ime/keyboard_engine_xkb.cc:182-184 | KP_0..KP_9 map to `XKB_KEY_0 + (k - KP_0)`, which lies in '0'..'9' and is a fixpoint of normalisation |
| KeyboardEngineXkb.UnicodeKeysymIsCodePoint | ui/ime/keyboard_engine_xkb.cc:185-188 | a keysym strictly between 0x01000100 and 0x01ffffff maps to keysym - 0x01000000, a code point strictly between 0x100 and 0xffffff |
| KeyboardEngineXkb.UnicodeBoundsExcluded | ui/ime/keyboard_engine_xkb.cc:185-188 | 0x01000100 and 0x01ffffff themselves have no result |
| KeyboardEngineXkb.FunctionKeysFromF1 | ui/ime/keyboard_engine_xkb.cc:189-192 | F1+i maps to OZONEACTIONKEY_F1+i for i < 24, and KP_F1+i gives the same code as F1+i for i < 4 |
| KeyboardEngineXkb.PeriodAliases | ui/ime/keyboard_engine_xkb.cc:221-223 | KP_Decimal and period both give OZONECHARCODE_PERIOD |
| KeyboardEngineXkb.DeleteAliases | ui/ime/keyboard_engine_xkb.cc:226-228 | Delete and KP_Delete both give OZONEACTIONKEY_DELETE |
| KeyboardEngineXkb.TabAliases | ui/ime/keyboard_engine_xkb.cc:229-233 | KP_Tab, ISO_Left_Tab, Tab and 3270_BackTab all give OZONEACTIONKEY_TAB |
| KeyboardEngineXkb.NoSymbolIsNull | ui/ime/keyboard_engine_xkb.cc:421-423 | NoSymbol, the initial cached keysym, gives OZONECHARCODE_NULL |
| KeyboardEngineXkb.EmptysetIsUnicode | ui/ime/keyboard_engine_xkb.cc:185-423 | the emptyset case label is dead: emptyset is in the Unicode range and maps to U+2205 |
| KeyboardEngineXkb.NormalizeIdempotentOnAlphanumeric | ui/ime/keyboard_engine_xkb.cc:177-184 | for letters, digits and keypad digits, normalising twice gives the same as normalising once |
| KeyboardEngineXkb.ModifierFlags | ui/ime/keyboard_engine_xkb.cc:76-91 | the recomputed flags hold SHIFT, CONTROL, ALT, CAPS_LOCK exactly for the names xkbcommon reports effective, and no other bit |
| KeyboardEngineXkb.NoModifiersIsOnlyCapsLocked | ui/ime/keyboard_engine_xkb.cc:122 | "no modifiers or only caps lock" is the same test as "only caps lock" |
| KeyboardEngineXkb.NormalizeOr | ui/ime/keyboard_engine_xkb.cc:108 | the value `cached_sym_` receives: NormalizeKey's result, or the caller-chosen `indeterminate` where the switch falls off its end |
| KeyboardEngineXkb.XkbKeyCode | ui/ime/keyboard_engine_xkb.cc:100 | the code handed to xkbcommon is the evdev code plus 8 modulo 2^32 |
| KeyboardEngineXkb.KeyboardEngine.SameMasks | ui/ime/keyboard_engine_xkb.cc:59-60 | the early-return test: all four stored masks equal the new ones |
| KeyboardEngineXkb.KeyboardEngine.constructor | ui/ime/keyboard_engine_xkb.cc:14-24 | all masks zero, `last_key_` is -1 (0xFFFFFFFF as a 32-bit pattern), cached keysym NoSymbol, no xkbcommon handle |
| KeyboardEngineXkb.KeyboardEngine.InitXKB | ui/ime/keyboard_engine_xkb.cc:129-134 | an existing context is kept without a call; otherwise a context is created, present iff creation succeeds |
| KeyboardEngineXkb.KeyboardEngine.FiniXKB | ui/ime/keyboard_engine_xkb.cc:136-151 | every non-null handle is released once, state then keymap then context, and all become null |
| KeyboardEngineXkb.KeyboardEngine.OnKeyboardKeymap | ui/ime/keyboard_engine_xkb.cc:30-50 | a failed mmap changes nothing; a failed compile leaves no keymap; once a state exists the keymap reference is dropped; the xkbcommon calls are a context creation when none exists, the compile, then the state creation and the keymap unref as far as each step succeeds |
| KeyboardEngineXkb.KeyboardEngine.OnKeyModifiers | ui/ime/keyboard_engine_xkb.cc:52-92 | no state, or masks equal to those stored: nothing changes; otherwise all four masks are stored, xkbcommon is updated and the flags are the effective SHIFT/CONTROL/ALT/CAPS only |
| KeyboardEngineXkb.KeyboardEngine.ConvertKeyCodeFromEvdev | ui/ime/keyboard_engine_xkb.cc:94-111 | a repeated code returns the cached keysym and changes nothing; a new code becomes `last_key_` and the cache becomes NormalizeKey of the old cached keysym, independent of the looked-up one |
| KeyboardEngineXkb.KeyboardEngine.IsSpecialModifier | ui/ime/keyboard_engine_xkb.cc:153-161 | true exactly when the converted keysym is ISO_Level3_Shift (AltGr), with the cache updated as by the conversion |
| KeyboardEngineXkb.KeyboardEngine.IsOnlyCapsLocked | ui/ime/keyboard_engine_xkb.cc:163-174 | true exactly when none of CONTROL, ALT, SHIFT is set |
| KeyboardEngineXkb.KeyboardEngine.IgnoreKeyNotify | ui/ime/keyboard_engine_xkb.cc:113-127 | never for a press, with no call; for a release, true exactly when the converted key is not AltGr and no CONTROL/ALT/SHIFT flag is set, with the keysym lookup recorded exactly when the code is not the cached one |
| KeyboardEngineXkb.FirstConversionIgnoresKeymap | ui/ime/keyboard_engine_xkb.cc:94-111 | on a fresh engine the first conversion of any code but 0xFFFFFFFF yields OZONECHARCODE_NULL, whatever the keymap holds |
| MirWindow.TranslateMirModifiers | mir/mir_window.cc:143-157 | SHIFT, CONTROL, ALT, CAPS_LOCK are set exactly for Mir's shift, ctrl, meta, caps-lock bits, and no other flag is set |
| MirWindow.TranslateNoneAndAlt | mir/mir_window.cc:143-157 | no Mir modifier gives no flag, and Mir's alt bit alone gives no flag |
| MirWindow.MotionCalls | mir/mir_window.cc:174-202 | the motion case makes at most one pointer call |
| MirWindow.EventCalls | mir/mir_window.cc:169-215 | at most two calls; none exactly for an event that is neither motion nor key; every non-empty trace ends with the key case's KeyNotify |
| MirWindow.ButtonFlags | mir/mir_window.cc:176-185 | primary gives LEFT, secondary RIGHT, tertiary MIDDLE, and any other button state the uninitialised flags (none) |
| MirWindow.KeyCall | mir/mir_window.cc:204-211 | the key case's KeyNotify: pressed iff down, NormalizeKey of the key code as unsigned, TranslateMirModifiers of the modifiers; its use is stated by KeyEvent and EventCalls |
| MirWindow.MotionButtonEvent | mir/mir_window.cc:174-191 | down/up give a ButtonNotify for the window, pressed iff down, at pointer 0; primary gives LEFT, secondary RIGHT, tertiary MIDDLE, any other button an indeterminate flag; then the fall-through KeyNotify |
| MirWindow.MotionPointerEvent | mir/mir_window.cc:193-204 | move, hover-enter and hover-exit give MotionNotify, PointerEnter, PointerLeave, and any other action none, each followed by the fall-through KeyNotify |
| MirWindow.KeyEvent | mir/mir_window.cc:204-212 | a key event gives exactly one KeyNotify: pressed iff down, NormalizeKey of the key code, TranslateMirModifiers of the modifiers |
| MirWindow.Window.constructor | mir/mir_window.cc:33-49 | a new window has its handle, holds its surface, and is not processing |
| MirWindow.Window.StartProcessingEvents | mir/mir_window.cc:130-135 | processing is on and the event handler is registered |
| MirWindow.Window.StopProcessingEvents | mir/mir_window.cc:137-139 | processing is off; the handler stays registered |
| MirWindow.Window.Release | mir/mir_window.cc:51-55 | the destructor releases the surface |
| MirWindow.Window.HandleEvent | mir/mir_window.cc:160-216 | while not processing nothing reaches the sink; otherwise the sink receives exactly EventCalls of the event |
| MirDisplay.ScreenBounds | mir/mir_display.cc:17-22 | a screen's bounds: the output's position and its current mode's resolution |
| MirDisplay.UsedScreens | mir/mir_display.cc:79-84 | the screens of the used outputs in output order; its contents are stated by UsedScreensContents and UsedScreensAppend |
| MirDisplay.Display.PrimaryScreen | mir/mir_display.cc:95-101 | none for an empty screen list, otherwise its first screen; after a refresh stated by PrimaryScreenOfConfiguration |
| MirDisplay.UsedScreensAppend | mir/mir_display.cc:80-84 | building the screen list distributes over concatenation of output lists |
| MirDisplay.UsedScreensContents | mir/mir_display.cc:79-84 | every used output gives a screen with its position and current mode's size, every screen comes from a used output, there are no more screens than outputs, and none exactly when no output is used |
| MirDisplay.FirstScreenIsFirstUsedOutput | mir/mir_display.cc:80-84 | the first screen is that of the first used output |
| MirDisplay.PrimaryScreenOfConfiguration | mir/mir_display.cc:95-101 | after a refresh the primary screen is null exactly when no output is used, and otherwise is the first used output's screen |
| MirDisplay.Display.constructor | mir/mir_display.cc:35-43 | not processing, no windows, the screen list built from the configuration |
| MirDisplay.Display.UpdateScreenList | mir/mir_display.cc:72-88 | the screen list becomes exactly the screens of the used outputs, in output order |
| MirDisplay.Display.OnDisplayConfigurationChanged | mir/mir_display.cc:183-189 | the screen list is rebuilt while processing and unchanged otherwise |
| MirDisplay.Display.CreateAcceleratedSurface | mir/mir_display.cc:107-116 | a fresh window for the handle is filed under it, over any earlier entry, and processes iff the display does |
| MirDisplay.Display.GetWindow | mir/mir_display.cc:127-129 | a present handle gives its entry and changes nothing; an absent one gives null and inserts a null entry |
| MirDisplay.Display.DestroyWindow | mir/mir_display.cc:118-125 | the window under the handle, if any, is released and the handle's entry, and no other, is removed |
| MirDisplay.Display.ClearWindowMap | mir/mir_display.cc:54-61 | every window is released and the map is empty |
| MirDisplay.Display.StartProcessingEvents | mir/mir_display.cc:146-159 | the display and every window in the map are processing; the map is unchanged |
| MirDisplay.Display.StopProcessingEvents | mir/mir_display.cc:161-168 | the display and every window in the map stop processing; the map is unchanged |
| MirDisplay.Display.SetWidgetState | mir/mir_display.cc:191-254 | CREATE files a new window that holds its surface and inherits processing, with its event handler registered iff the display processes; RESIZE may insert a null entry; DESTROYED removes the entry and stops processing iff the map is then empty; every other state changes nothing |
| DisplayPollThread.WithCloExec | wayland/display_poll_thread.cc:33 | `flags \| FD_CLOEXEC`: the close-on-exec bit is set and no other bit changes |
| DisplayPollThread.SetCloExecOrClose | wayland/display_poll_thread.cc:23-41 | -1 gives -1 with no call; a failed get or set closes the fd and gives -1; otherwise the same fd; -1 is returned exactly when the fd was -1 or closed; the fd and calls equal those of CloExecOrClose |
| DisplayPollThread.CloExecOrClose | wayland/display_poll_thread.cc:23-41 | the fd comes back exactly when it is a descriptor and both fcntl calls succeed, and then only after close-on-exec is set on it; otherwise -1, and an fd other than -1 is closed; every call is on that fd, `F_GETFD` first |
| DisplayPollThread.OsEpollCreateCloExec | wayland/display_poll_thread.cc:43-56 | the descriptor and the calls equal those of EpollCreated |
| DisplayPollThread.EpollCreated | wayland/display_poll_thread.cc:43-56 | epoll_create1 comes first and its fd is returned when non-negative; -1 without fallback on an errno other than EINVAL; epoll_create is called exactly on EINVAL, and its fd is returned exactly when it and both fcntl calls succeed, only after close-on-exec is set on it, and is closed exactly when it is not returned |
| DisplayPollThread.PollThread.constructor | wayland/display_poll_thread.cc:59-65 | inactive, no epoll descriptor, no call |
| DisplayPollThread.PollThread.StartProcessingEvents | wayland/display_poll_thread.cc:72-89 | from inactive with no descriptor: the descriptor is created, the display fd registered for IN\|OUT, and the thread active |
| DisplayPollThread.PollThread.StopProcessingEvents | wayland/display_poll_thread.cc:91-97 | inactive with no descriptor afterwards; close is called only when there was one, so a second stop makes no call |
| DisplayPollThread.EventStep | wayland/display_poll_thread.cc:124-147 | the specification of one readiness entry's handling: its calls, the interest after it and whether it ends the loop; its properties are EventStepExits, EventStepCalls and EventStepInterest |
| DisplayPollThread.HandleEvents | wayland/display_poll_thread.cc:123-148 | the specification of the inner `for`: entries in order, stopping at the first that ends the loop; stated by HandleEventsExits and HandleEventsKeepsInterest |
| DisplayPollThread.RoundStep | wayland/display_poll_thread.cc:105-148 | the specification of one iteration of `while (1)`; stated by RoundStart, RoundWait, EntriesExitAfterWait, DispatchFollowsWait and RoundKeepsInterest |
| DisplayPollThread.Run | wayland/display_poll_thread.cc:105-149 | the specification of the whole loop over a script of rounds, ending at the first exit; stated by RunKeepsInterest, ErrorOrHangupEndsLoop and RunStartsWithDispatchPending |
| DisplayPollThread.EventStepExits | wayland/display_poll_thread.cc:123-148 | an entry ends the loop on ERR or HUP before any call, on a failed dispatch after IN, or on an OUT flush failing with an errno other than EAGAIN, and for no other reason |
| DisplayPollThread.EventStepCalls | wayland/display_poll_thread.cc:130-147 | IN dispatches, OUT flushes (unless the dispatch failed), and both in that order when both bits are set |
| DisplayPollThread.EventStepInterest | wayland/display_poll_thread.cc:136-146 | a flush returning 0 narrows the interest to IN\|ERR\|HUP, the only interest change and the only call besides dispatch and flush |
| DisplayPollThread.HandleEntry | wayland/display_poll_thread.cc:124-147 | the handling of one entry equals its specification EventStep |
| DisplayPollThread.HandleReady | wayland/display_poll_thread.cc:123-148 | the inner loop equals HandleEvents: entries in order, stopping at the first that ends the loop |
| DisplayPollThread.PollRound | wayland/display_poll_thread.cc:106-148 | one outer iteration equals its specification RoundStep |
| DisplayPollThread.DisplayRun | wayland/display_poll_thread.cc:99-150 | the loop's calls, final interest and exit equal those of Run over the script of rounds, after fetching the display fd |
| DisplayPollThread.KnownInterestReadsInput | wayland/display_poll_thread.cc:113-142 | each of IN\|OUT, IN\|OUT\|ERR\|HUP and IN\|ERR\|HUP includes IN |
| DisplayPollThread.HandleEventsKeepsInterest | wayland/display_poll_thread.cc:136-146 | handling entries keeps the interest among the three known ones and only re-registers IN\|ERR\|HUP |
| DisplayPollThread.RoundKeepsInterest | wayland/display_poll_thread.cc:111-148 | a round keeps the interest among the three known ones and re-registers only known interests |
| DisplayPollThread.RunKeepsInterest | wayland/display_poll_thread.cc:105-149 | from a known interest the whole loop only ever registers known interests, each of which awaits input |
| DisplayPollThread.HandleEventsExits | wayland/display_poll_thread.cc:123-148 | the inner loop ends the outer one only for ERR/HUP, a failed dispatch or a failed output flush |
| DisplayPollThread.RoundStart | wayland/display_poll_thread.cc:105-117 | dispatch pending comes first; the round stops right after it exactly when inactive; then the flush; a failure other than EAGAIN ends the loop before the wait |
| DisplayPollThread.RoundWait | wayland/display_poll_thread.cc:111-121 | EAGAIN widens the interest to IN\|OUT\|ERR\|HUP before the wait; a non-negative flush is followed by the wait with the interest unchanged; inactive after the wait ends the loop with no entry handled |
| DisplayPollThread.EntriesExitAfterWait | wayland/display_poll_thread.cc:108-148 | a round that passes its wait with the thread active never ends by a failed `active_` test or a failed pre-wait flush; only its entries can end it |
| DisplayPollThread.DispatchFollowsWait | wayland/display_poll_thread.cc:119-134 | every dispatch of a round comes after that round's wait |
| DisplayPollThread.ErrorOrHangupEndsLoop | wayland/display_poll_thread.cc:127-128 | the entries are handled in full only when none reports ERR or HUP |
| DisplayPollThread.RunStartsWithDispatchPending | wayland/display_poll_thread.cc:105-106 | the loop's first call is dispatch pending |

## Left out

- Threading is not modelled: `base::Thread`, `StartWithOptions`, `SetPriority`, `PostTask`, `screen_list_lock_` and cross-thread visibility of `active_`. The poll loop gets `active_` at each of its two tests from the script of rounds.
- xkbcommon, the Mir client library, libwayland and the kernel are answered by parameters. Only the calls listed with the traces above are recorded. The behaviour of these libraries is not modelled.
- KeyboardEngineXkb.KeyboardEngine.OnKeyboardKeymap: reduced to which of mmap, context creation, keymap compilation and state creation succeed. The keymap text that reaches xkbcommon is not modelled.
- KeyboardEngineXkb.KeyboardEngine.ConvertKeyCodeFromEvdev: the keysym lookup is recorded as a call, and its result is not modelled because the code discards it. A lookup with a null state is xkbcommon's concern and is not modelled.
- The window setters `Maximize`, `Minimize`, `Restore`, `SetFullscreen`, `SetWindowType` and `SetWindowTitle` are one-line Mir calls and are not modelled. So are `Resize`, `RealizeAcceleratedWidget`, `GetBounds`, `egl_window` and `NotifyResize`; `NotifyResize` reports the surface size to the sink when a window is created. `SetWidgetTitle` and `SetWidgetAttributes` are left out for the same reason.
- MirDisplay.Display.SetWidgetState: a window must exist for FULLSCREEN, MAXIMIZED, MINIMIZED and RESTORE, because their setters read the window's surface (mir/mir_window.cc:83-101); through a null pointer that is undefined behaviour. RESIZE needs no window: `MirWindow::Resize` is non-virtual (mir/mir_window.h:34) and only logs, never reading the window (mir/mir_window.cc:116-119).
- MirDisplay.Display.StartProcessingEvents: the map must hold no null entry, because the code calls through every entry. MirDisplay.Display.StopProcessingEvents has the same requirement.
- `GetEGLSurfaceProperties` is a constant EGL attribute table and is not modelled. The same goes for `GPUProcessDisplayInstance`, a process-wide singleton, and `LookAheadOutputGeometryHack`, a leaking constructor. The getters `GetScreenList`, `GetWindowList` and `GetKeyBoardModifiers` return a field and are not modelled.
- Iteration order over `window_map_` is not modelled: the model visits the keys in an arbitrary order. Every property stated holds for every order.
- Destructors are not modelled, apart from the window's own release. The display's destructor clears the screen list and the window map; the poll thread's destructor stops processing and the thread.
- DCHECKs follow release builds and are not checked. The exception is the entry check of `PollThread.StartProcessingEvents`, which is a precondition. The return value of `epoll_ctl` is logged for the ADD (wayland/display_poll_thread.cc:79-80) and ignored for the two MODs (wayland/display_poll_thread.cc:114, 143). The model does not record it and assumes every MOD takes effect.
- DisplayPollThread.DisplayRun: `while (1)` is modelled over a finite script of rounds, and the model exits with `ScriptExhausted` when the script ends. A wait that fails is the same as a wait that reports no entry. The script does not bound the number of entries per wait by `MAX_EVENTS`.
- DisplayPollThread.OsEpollCreateCloExec: `EPOLL_CLOEXEC` is assumed to be defined, as it is on Linux.
- The display configuration is assumed to give every used output an in-range current mode (`UsedOutputsHaveModes`, a requirement of MirDisplay.Display.constructor, MirDisplay.Display.UpdateScreenList and MirDisplay.Display.OnDisplayConfigurationChanged). The code indexes `output.modes[output.current_mode]` without a check (mir/mir_display.cc:20-21).
- Screen bounds hold the uint32 resolutions as unbounded integers. `gfx::Rect` takes `int` sizes, so a resolution of 2^31 or more would narrow to a negative value, which `gfx::Rect` clamps to 0. The model does not capture that narrowing or that clamping.
- Pointer coordinates are floating point in Mir and are modelled as `real`; only their values as passed along matter.
