# zdl: event normalisation and window state, in Dafny

zdl is a small windowing and input layer with four backends: Win32, X11
(Xlib), Android (native activity) and bare DRM/KMS on a Linux virtual
terminal. Each backend turns native notifications into one shared
`struct zdl_event`. Each also keeps a window record: its geometry, a flag
bitmask, a "masked" geometry that is restored after fullscreen, and a
modifier mask.

This project models the logic of the four backends that sits above the
native APIs:

- **The shared vocabulary of `zdl.h`** (module `Zdl`):
  - the modifier bitmask, with combined masks as unions of their halves;
  - the key symbols;
  - the tagged event record;
  - the invalid window handle and the C++ wrapper that throws on it;
  - the title defaulting that every desktop backend uses.
- **The event queue** (module `Queue`). This is a FIFO over a linked list, modelled as a class holding a `seq<Event>`. It includes the Win32 "smash key" step, which writes a `WM_CHAR` code point into the `KEYPRESS` at the tail instead of appending a record. Android uses the same FIFO without that step.
- **Win32** (module `Win32`):
  - the virtual-key table and `zdl_translate`;
  - the event cases of the window procedure;
  - fullscreen and size changes with the masked geometry;
  - poll and title handling.
- **Android** (module `Android`):
  - the fan-out of a multi-touch notification into one motion record per pointer;
  - key and meta-state translation;
  - the mapping from host lifecycle notifications to events;
  - the shutdown latch of `poll_event` and `wait_event`;
  - the window-flag computation of `set_flags`;
  - the single-window rule.
- **X11** (module `Xlib`):
  - the accumulated modifier mask;
  - the keysym tables, including the resend to the root window of keys zdl does not know;
  - motion deltas and ConfigureNotify filtering;
  - `set_flags`, `set_size`, `set_position` and `set_title` on a window record;
  - poll and wait.
- **DRM** (modules `DrmTty`, `DrmClipboard` and `Drm`):
  - the raw-scancode decoder of the tty, as a loop;
  - the Alt+F*n* virtual-terminal switch;
  - the suspend, resume, swap and page-flip state of the EGL surface;
  - connector, encoder and mode selection;
  - the in-memory clipboard over a model of the C heap.

Native calls (X11 requests, Win32 API calls, DRM master changes, page
flips, Android window-flag and looper calls) are appended to a ghost log
of call records, so that "no native call when nothing changed" can be
stated. Native inputs are parameters of the operations:
- a message or an X event;
- the bytes a tty read returns;
- the virtual terminal currently active;
- whether a native allocation (the window record in every backend's `create`, the DRM context, a clipboard handle or copy) or a DRM resume succeeds.

Each backend is written in two layers:

- **Specification functions over a state datatype.** The lemmas are stated about these.
- **A class whose fields are the C struct's.** Its methods are proved to move that state exactly as the specification function says.

The loops of the source are methods with loop invariants:
- the tty read loop and the VT-switch read loop (`DrmTty.Tty.ReadEvent`, `Drm.DrmWindow.Pump`);
- the running-maximum mode search and the first-match searches (`Drm.SelectMode`, `Drm.SelectConnector`, `Drm.SelectEncoder`);
- the per-pointer push loop (`Android.AndroidApp.HandleInput`);
- the flag-mapping loop (`Android.ComputeWindowFlags`);
- the dispatch loops (`Win32.Win32Window.PollEvent`, `Android.AndroidApp.Pump`, `Xlib.XlibWindow.WaitEvent`).

## Names that zdl.h does not declare

The `zdl.h` in the repository matches only the Win32 backend. Several names the other backends use have fixed values chosen here:
- Window flags are one bit each, in the order FULLSCREEN, NORESIZE, NOCURSOR, NODECOR, CLIPBOARD, COPYONHL, FLIP_Y (bits 0 to 6).
- Motion ids: the mouse is `MOTION_POINTER` = 0, and touch contacts start at `MOTION_TOUCH_START` = 1.
- Motion flags: NONE = 0, INITIAL = 1, FINAL = 2.
- `KEYSYM_PERCENT` is 135.
- The event record carries `motion.id`, `motion.flags` and `button.modifiers`. Backends that never write these fields leave them 0.
- The clipboard payload is a tagged choice of text, URI or image. A null pointer is `None`.

## Behaviour of the code worth noting

- **Reconfigure coalescing.** No backend merges pending Reconfigure records. A second resize is queued as a second record.
- **Dropped keys.** Unknown keys are not always kept:
  - X11 drops a keysym it does not know and resends the event to the root window.
  - The DRM tty drops unmapped codes of 64 and above.
  - The DRM tty drops modifier presses that do not change the mask.
- **Lead bytes on DRM.** The tty decoder masks off the release bit before its `case 0xe0 … 0xe2` lead-byte test, so that test never matches:
  - 0xe0 and 0xe2 are skipped only because 0x60 and 0x62 are unmapped;
  - 0xe1 is a release of right Ctrl (`DrmTty.LeadBytes`).
- **The wheel.** Win32 reports button 4 for a delta of zero or more and 5 for a negative one, each as a press with no release.
- **After Exit on Android.** Once Exit has been popped, `poll_event` returns -1 and `wait_event` returns an `ERROR` record; neither returns Exit again.
- **Android `set_flags`.** It stores the requested flags, not the forced FULLSCREEN|NORESIZE mask it compares against, so calling it twice with the same flags can still make a native call (`Android.SetFlagsWindowChanges`).
- **The first Android motion sample.** Its delta comes from the host's history samples. It is zero only when there is no history.

## Model

| member | source | states |
|---|---|---|
| Zdl.SingleModifiersAreDistinctBits | zdl.h:13-30 | NONE is 0, and the sixteen named single modifiers LSHIFT … MODE are each a single bit, pairwise distinct |
| Zdl.CombinedMasksAreUnions | zdl.h:32-37 | a single modifier meets SHIFT, CTRL, ALT, META, SUPER or HYPER exactly when it is that mask's left or right half, and any mask meets a combined mask exactly when it meets one of its halves |
| Zdl.UpdateModifiersTouchesOnlyItsBits | zdl_xlib.c:424-427 | a press sets the key's modifier bits, a release clears them, and every other bit of the mask is unchanged |
| Zdl.UpdateWithoutBits | zdl_drm.c:767-778 | a key with no modifier bit leaves the mask as it was |
| Zdl.ReleaseChangesMask | zdl_drm.c:770-777 | a release leaves `mask & ~bits`, and leaves the mask unchanged exactly when none of the bits were held; this is the case in which the tty suppresses the event |
| Zdl.FunctionKeysAreConsecutive | zdl.h:138-152 | F1 … F15 are fifteen consecutive symbols, and a symbol is a function key exactly when it is one of them |
| Zdl.FunctionKeyNumber | zdl_drm.c:883-885 | for a function key, `sym - F1 + 1` lies in 1..15 and names that key |
| Zdl.Event.Tag | zdl.h:178-194 | the tag is an ordinal of `enum zdl_event_type` at most 10, and it is 0 or 1 exactly for key records |
| Zdl.TagDeterminesPayload | zdl.h:196-218 | key, button, motion and reconfigure tags carry a payload and the others do not; two payload-less records with the same tag are equal |
| Zdl.ConstructWindow | zdl.h:247-251 | the C++ wrapper throws 0 exactly when create returned the invalid (null) handle, and otherwise keeps the valid handle |
| Zdl.ResolveTitle | zdl_win32.c:509-524 | set_title does nothing when both names are missing; otherwise a missing icon name or window name takes the other's value |
| Queue.SmashTail | zdl_win32.c:28-35 | smashing keeps the length and every record but the last; it rewrites only the tail's unicode, and only when the tail is a KEYPRESS; otherwise the queue is unchanged |
| Queue.SmashKeepsTags | zdl_win32.c:28-35 | smashing never changes the tag of any queued record |
| Queue.SmashLastWins | zdl_win32.c:28-35 | two smashes in a row are one smash with the later code point |
| Queue.PushThenSmash | zdl_win32.c:258-267 | a key press followed by its character is one queued KEYPRESS carrying that code point |
| Queue.EventQueue.constructor | zdl_win32.c:22-26 | a new queue is empty |
| Queue.EventQueue.Push | zdl_win32.c:37-52 | push appends: the queue is the old queue followed by the event |
| Queue.EventQueue.Pop | zdl_win32.c:54-72 | on a non-empty queue, pop returns the head and removes it; on an empty queue it returns nothing and leaves the queue empty |
| Queue.EventQueue.SmashKey | zdl_win32.c:28-35 | the queue becomes `SmashTail` of the old queue |
| Queue.EventQueue.Destroy | zdl_win32.c:74-79 | destroy leaves the queue empty |
| Queue.FifoOrder | zdl_android.c:447-477 | any records pushed onto a new queue are popped one per pop in push order, and the pop after the last finds the queue empty |
| Win32.LowWord | zdl_win32.c:325-326 | LOWORD is a 16-bit value |
| Win32.HighWord | zdl_win32.c:212 | HIWORD is a 16-bit value |
| Win32.WordsRoundTrip | zdl_win32.c:325-326 | LOWORD and HIWORD recover both halves of a packed LPARAM |
| Win32.SignedShort | zdl_win32.c:276 | the `(short)` cast gives a value in -32768..32767 that is negative exactly for words of 0x8000 or more, and is congruent to the word mod 2^16 |
| Win32.VirtualKeySym | zdl_win32.c:99-207 | every virtual key maps to a known key symbol or to -1 (unknown) |
| Win32.VirtualKeyRanges | zdl_win32.c:99-207 | letter, digit, keypad-digit and F1..F15 virtual keys map to consecutive runs of key symbols |
| Win32.Translate | zdl_win32.c:208-216 | sym is the table value of wParam; scancode is `(lParam >> 16) & 0x7f`; unicode and modifiers are 0 |
| Win32.ButtonNumber | zdl_win32.c:281-321 | left, right and middle buttons are numbered 1, 2 and 3 |
| Win32.WheelButton | zdl_win32.c:274-280 | the wheel reports button 5 exactly for a negative delta, and 4 otherwise |
| Win32.OnMessage | zdl_win32.c:243-360 | handling a message never changes the title, the fullscreen setting or the masked size, and queues at most one record |
| Win32.KeyMessagesNeverDropped | zdl_win32.c:262-273 | WM_KEYDOWN and WM_KEYUP always queue one KEYPRESS or KEYRELEASE; an unknown virtual key still queues a record, with sym -1 |
| Win32.CharJoinsKeyPress | zdl_win32.c:258-267 | WM_KEYDOWN then WM_CHAR leaves one KEYPRESS carrying the character |
| Win32.ButtonMessages | zdl_win32.c:274-322 | the wheel queues only a BUTTONPRESS with button 4 or 5 at the LOWORD/HIWORD position of lParam; a button-down or button-up queues one BUTTONPRESS or BUTTONRELEASE with the button's number at that position |
| Win32.MouseMoves | zdl_win32.c:323-332 | one WM_MOUSEMOVE per position |
| Win32.MotionDeltasTelescope | zdl_win32.c:323-332 | each motion delta is measured from the last motion position, so the deltas of a run of moves sum to the last position minus the position before the run, and the last position is recorded |
| Win32.SizeMessagesDeduplicated | zdl_win32.c:333-342 | a WM_SIZE with the current size queues nothing; otherwise it queues one RECONFIGURE and records the size; repeating it changes nothing more |
| Win32.DispatchKeepsQueuedRecords | zdl_win32.c:488-497 | dispatching messages never removes or reorders records already queued |
| Win32.PollReturnsOldestRecordFirst | zdl_win32.c:488-497 | with two or more records queued, poll returns the oldest one first, whatever messages are dispatched (a lone queued KEYPRESS can still be rewritten by a WM_CHAR) |
| Win32.PollReturnsLoneRecordFirst | zdl_win32.c:488-497 | with one record queued, poll returns a record of that record's tag first, whatever messages are dispatched |
| Win32.SetFullscreenTransitions | zdl_win32.c:432-460 | the current setting is a no-op; entering fullscreen saves width and height in the masked size and covers the monitor; leaving restores the masked size as a windowed style |
| Win32.FullscreenRoundTripRestoresSize | zdl_win32.c:432-460 | windowed → fullscreen (and the WM_SIZE it causes) → windowed restores the windowed size |
| Win32.SetSizeTransitions | zdl_win32.c:467-480 | the current size is a no-op; while windowed the window is resized; while fullscreen only the masked size changes |
| Win32.CreateEntersRequestedFullscreen | zdl_win32.c:362-422 | a window created with fullscreen set starts fullscreen, with the requested size saved as the masked size |
| Win32.SetTitleDefaults | zdl_win32.c:509-524 | both names missing is a no-op; otherwise the window name, or the icon name when the window name is missing, becomes the title |
| Win32.PollSpec | zdl_win32.c:488-497 | poll dispatches every message; without a record the queue is left empty, with one the record followed by the remaining queue is the dispatched queue; nothing else in the dispatched state changes |
| Win32.SetFullscreenSpec | zdl_win32.c:432-460 | the fullscreen setting becomes the requested one; queue, title and size are kept; native calls are only appended |
| Win32.SetSizeSpec | zdl_win32.c:467-480 | fullscreen, queue and title are kept; while windowed the window takes the new size; while fullscreen the live size and the call log are unchanged |
| Win32.SetTitleSpec | zdl_win32.c:509-524 | only the title and the log can change, and a SetWindowText of the new title is logged exactly when a title is set |
| Win32.CreateSpec | zdl_win32.c:362-422 | a new window has the requested fullscreen setting, an empty queue and no title; its log starts with RegisterClass, CreateWindowEx of the requested size and the GL setup of WM_CREATE, and ends with ShowWindow |
| Win32.Win32Window.constructor | zdl_win32.c:367-371 | a new window record has empty geometry, an empty queue and no native calls |
| Win32.Win32Window.HandleMessage | zdl_win32.c:243-360 | the window state becomes `OnMessage` of the old state |
| Win32.Win32Window.PollEvent | zdl_win32.c:488-497 | dispatches the pending messages and then pops, as `PollSpec` |
| Win32.Win32Window.SetFullscreen | zdl_win32.c:432-460 | the window state becomes `SetFullscreenSpec` of the old state |
| Win32.Win32Window.GetFullscreen | zdl_win32.c:462-465 | returns the stored fullscreen setting |
| Win32.Win32Window.SetSize | zdl_win32.c:467-480 | the window state becomes `SetSizeSpec` of the old state |
| Win32.Win32Window.GetSize | zdl_win32.c:482-486 | returns the stored width and height |
| Win32.Win32Window.SetTitle | zdl_win32.c:509-524 | the window state becomes `SetTitleSpec` of the old state |
| Win32.Win32Window.ShowCursorCall | zdl_win32.c:499-502 | logs one ShowCursor call and changes nothing else |
| Win32.Win32Window.Swap | zdl_win32.c:504-507 | logs one SwapBuffers call and changes nothing else |
| Win32.Win32Window.Destroy | zdl_win32.c:424-430 | empties the queue and logs DestroyWindow, then the GL teardown and PostQuitMessage(0) of the WM_DESTROY handler DestroyWindow runs |
| Win32.CreateWindow | zdl_win32.c:362-422 | create fails exactly when the record cannot be allocated, the class cannot be registered or the native window cannot be created; otherwise the new window is in `CreateSpec`, whose log includes the GL setup of WM_CREATE |
| Android.AppStateAfter | zdl_android.c:1134-1219 | STOP, DESTROY, START, PAUSE and RESUME set the application state to their own value; every other notification keeps it |
| Android.MotionFlag | zdl_android.c:1016-1031 | INITIAL exactly for the action pointer on DOWN and POINTER_DOWN; FINAL exactly for the action pointer on UP, CANCEL and POINTER_UP; NONE otherwise |
| Android.MotionRecords | zdl_android.c:1001-1047 | one record per pointer, the i-th built from the i-th pointer |
| Android.MotionFanOut | zdl_android.c:1001-1047 | N pointers give N MOTION records; each carries the pointer's position, its id offset by MOTION_POINTER for a mouse and MOTION_TOUCH_START otherwise, and its delta from the last history sample (0 without history); only the action pointer is flagged; distinct pointer ids stay distinct |
| Android.MetaModifiers | zdl_android.c:1052-1059 | each modifier bit is set exactly when the matching meta-state bits are, and no other bit is set |
| Android.AsSize | zdl_android.c:1072 | the conversion of the `int` key code to `size_t` (32 or 64 bits by ABI) before the remainder: a value below 2^32 or 2^64, the code itself when it is non-negative, and the code plus that modulus when it is negative |
| Android.KeysymIndex | zdl_android.c:1065-1072 | the table index `code % length`, taken after that conversion on either ABI, is always in bounds and equals the code for codes inside the table |
| Android.NegativeKeyCodeWraps | zdl_android.c:1072 | key code -1 becomes 2^64 - 1 and indexes entry 48 with a 64-bit `size_t`, becomes 2^32 - 1 and indexes entry 6 with a 32-bit one, and never entry 110 |
| Android.KeysymTableRanges | zdl_android.c:879-990 | the table has 111 entries; letters and digits are consecutive runs; DEL maps to DELETE; codes 0 and 111 wrap onto BACKSPACE |
| Android.KeyUnicode | zdl_android.c:857-877 | DEL gives 8; any other key gives the host's character reduced to 16 bits |
| Android.KeyTranslation | zdl_android.c:1052-1096 | a mouse source gives button records and every other source key records; DOWN gives a press; modifiers come from the meta state alone; sym is the table entry at the code converted to `size_t` mod 111, unicode comes from the host lookup, and scancode is one byte |
| Android.KeyRecord | zdl_android.c:1052-1096 | DOWN and UP give a key record whose symbol is a table entry, or for a mouse source a button record whose modifiers come from the meta state; any other action leaves the record uninitialised (`stale`) |
| Android.InputRecords | zdl_android.c:992-1100 | a key notification pushes one record, a motion notification one per pointer, anything else none |
| Android.LifecycleMapping | zdl_android.c:1134-1219 | a notification appends at most one record: EXIT exactly for STOP and DESTROY, EXPOSE exactly for WINDOW_CREATED and REDRAW_NEEDED; a content-rect change stores the new size and pushes RECONFIGURE only when the size differs, so repeating it changes nothing |
| Android.AfterAppEvent | zdl_android.c:1134-1219 | only WINDOW_CREATED and WINDOW_DESTROYED change the native window, and only a content-rect change changes the size |
| Android.AfterCallback | zdl_android.c:1102-1123 | a host callback never removes or reorders queued records |
| Android.PumpSpec | zdl_android.c:1307-1345 | the pump consumes at most the callbacks given, at least one when it returns a record, and all of them when it returns none |
| Android.PumpReturnsOldestRecord | zdl_android.c:1328-1345 | with no callbacks nothing happens; after a callback the oldest queued record is returned |
| Android.NoChangeNoWindowFlags | zdl_android.c:614-635 | with no changed bits, the add and remove sets are both empty |
| Android.SetFlagsWindowChanges | zdl_android.c:614-635 | FULLSCREEN is forced into the compared mask, so only the add set can be non-empty, and only when the stored flags lack FULLSCREEN; because the requested flags are stored, a repeat call adds FULLSCREEN again whenever the request lacked it |
| Android.ComputeWindowFlags | zdl_android.c:620-630 | the loop over the flag mapping returns `AddedFlags` and `RemovedFlags`: the window flags of the changed entries that are now set, and of those that are now clear |
| Android.FlagChangesStep | zdl_android.c:622-629 | one more table entry is one more pass of the loop: an unchanged flag is skipped, a set one extends the add set, a clear one the remove set |
| Android.FullscreenMapping | zdl_android.c:607-612 | the window's table maps only FULLSCREEN, to the fullscreen layout flag, so the add and remove sets depend on that bit alone |
| Android.ForcedFullscreen | zdl_android.c:616-617 | the forced mask always holds FULLSCREEN, so that bit changed exactly when the compared flags lack it |
| Android.AndroidWindow.constructor | zdl_android.c:820-834 | a new window has no native window, no flags, no size, an empty queue and no shutdown |
| Android.AndroidWindow.SetFlags | zdl_android.c:614-635 | stores the requested flags and makes one native call exactly when the add or remove set is non-empty |
| Android.AndroidWindow.GetFlags | zdl_android.c:637-640 | returns the stored flags |
| Android.WindowQueuePush | zdl_android.c:485-490 | a push to a valid window appends; a push to the invalid window does nothing |
| Android.AndroidApp.constructor | zdl_android.c:1347-1375 | a new application has no state, window, native window, input queue or pending destroyer |
| Android.AndroidApp.HandleEvent | zdl_android.c:1134-1219 | updates the application state, the window as `AfterAppEvent`, the native window, the input queue and the destroyer, and logs exactly the looper and host calls of the notification; a content-rect change with no window is a fault |
| Android.AndroidApp.HandleInput | zdl_android.c:992-1100 | reports whether the notification was handled and pushes exactly `InputRecords` of it |
| Android.AndroidApp.RunCallback | zdl_android.c:1102-1123 | the window becomes `AfterCallback` of its old view; its flags and shutdown are unchanged |
| Android.AndroidApp.Pump | zdl_android.c:1307-1345 | runs callbacks until a record can be popped, as `PumpSpec`; shutdown latches when EXIT is returned |
| Android.AndroidApp.PollEvent | zdl_android.c:1328-1345 | after shutdown, returns -1 and touches nothing; otherwise pumps; returns 0 exactly with a record |
| Android.AndroidApp.WaitEvent | zdl_android.c:1307-1326 | after shutdown, returns ERROR and touches nothing; otherwise pumps |
| Android.ExposeSpec | zdl_android.c:838-840 | the wait-for-EXPOSE loop of create: it consumes at most the callbacks given, and at least one when the window is exposed |
| Android.ExposedByWindowCreated | zdl_android.c:838-840 | with an empty queue, a WINDOW_CREATED notification exposes the window with its native window after one callback |
| Android.StopBeforeExposeFails | zdl_android.c:838-840 | with an empty queue, a STOP notification ends the wait unexposed after one callback |
| Android.AndroidApp.ExposeTurn | zdl_android.c:838-840 | one pass of that loop: one wait, after which either the loop stops with the outcome of `ExposeSpec`, or `ExposeSpec` of the rest of the callbacks gives the same outcome |
| Android.AndroidApp.AwaitExpose | zdl_android.c:838-840 | the loop leaves the window, the exposed flag and the number of callbacks used as `ExposeSpec` |
| Android.AndroidApp.CreateWindow | zdl_android.c:820-846 | create fails, changing nothing, when a window already exists or the record cannot be allocated; otherwise it makes the one window with the requested flags, its state and the exposed flag are `ExposeSpec` of the callbacks, and the display is initialised when it is exposed |
| Android.AndroidApp.DestroyWindow | zdl_android.c:848-855 | forgets the window, empties its queue and tears down the display |
| Xlib.ModifierBitIsSingle | zdl_xlib.c:405-422 | a modifier keysym maps to one single modifier bit, and exactly the sixteen listed keysyms map to one |
| Xlib.XKeysym | zdl_xlib.c:429-567 | every keysym maps to a known key symbol or to unknown |
| Xlib.ListedKeysym | zdl_xlib.c:429-567 | the listed (non-range) keysyms map to a known key symbol or to unknown |
| Xlib.XKeysymCaseAndFunctionKeys | zdl_xlib.c:429-567 | lower- and upper-case letters map to the same known symbol; F1..F15 keysyms map to function keys in order |
| Xlib.TranslateProperties | zdl_xlib.c:397-589 | the accumulated mask is updated by the key's modifier bit; an emitted key carries the new mask and the table symbol; the event is dropped exactly when the keysym is unknown, and only then is it resent to the root window |
| Xlib.TranslateCodes | zdl_xlib.c:578-586 | a keysym of 0xff00 or more gives scancode and unicode 0; otherwise unicode is the keysym and scancode its low byte |
| Xlib.HyperKeysUpdateMaskButAreDropped | zdl_xlib.c:414-415 | Hyper_L and Hyper_R set or clear their bit, but no event is emitted |
| Xlib.MotionAndEnter | zdl_xlib.c:621-634 | a motion delta is measured from the last motion position, which is then updated; EnterNotify emits GAINFOCUS and resets that position |
| Xlib.ConfigureFiltering | zdl_xlib.c:638-675 | another window's event is ignored; same size and position is ignored; a move only updates x/y, taken from the event when it was sent and from the root coordinates otherwise; a size change is stored and reported |
| Xlib.ConfigureReportedOnce | zdl_xlib.c:638-675 | the same ConfigureNotify delivered twice reports nothing the second time |
| Xlib.WaitSpec | zdl_xlib.c:703-706 | wait consumes at most the events given, and all of them when none yields a record |
| Xlib.WaitSkipsSilentEvents | zdl_xlib.c:703-706 | every event wait reads before the one that gives its record yields no record |
| Xlib.WaitRecordIsRead | zdl_xlib.c:703-706 | the record and state wait returns are those of reading its last event in the state the events before it leave |
| Xlib.WaitWithoutRecordState | zdl_xlib.c:703-706 | a wait that runs out of events leaves the state all of them leave |
| Xlib.SetFlagsUnchanged | zdl_xlib.c:289-348 | set_flags with the current flags changes nothing and makes no native call |
| Xlib.FullscreenRoundTrip | zdl_xlib.c:293-317 | entering fullscreen saves x, y, width and height in the masked geometry and covers the display; leaving restores them with one move-resize request |
| Xlib.DecorationChangeFoldedIntoFullscreen | zdl_xlib.c:293-330 | a NORESIZE or NODECOR change that comes with a fullscreen change is folded into it: one hints request, then one move-resize |
| Xlib.SetPositionAsWrittenMissesWindow | zdl_xlib.c:376-389 | the code as written sends the move request with the wrong arguments instead of (window, x, y) |
| Xlib.SetPositionAsWrittenExample | zdl_xlib.c:384 | a concrete window for which the written call is XMoveWindow(10, 20, 480) where (window, 10, 20) was meant |
| Xlib.GeometryRequests | zdl_xlib.c:355-389 | equal values are no-ops; while fullscreen only the masked geometry changes; while windowed the live geometry changes and one resize or move request of the window is sent |
| Xlib.SizeSetWhileFullscreenIsRestored | zdl_xlib.c:297-317 | a size set while fullscreen is applied when fullscreen is left |
| Xlib.SetTitleDefaults | zdl_xlib.c:713-725 | both names missing is a no-op; otherwise the missing name takes the other's value for both requests |
| Xlib.CreateProperties | zdl_xlib.c:235-278 | a new window has the requested flags; fullscreen covers the display and keeps the requested size as masked; a NOCURSOR window hides the cursor |
| Xlib.TranslateSpec | zdl_xlib.c:397-589 | only the modifier mask and the log change, the log only by one resend to the root window; an emitted key has a scancode below 0x100 and a unicode below 0x10000 |
| Xlib.ReadEventSpec | zdl_xlib.c:591-693 | flags, masked geometry and the window handles are kept; EXIT is returned exactly for a ClientMessage carrying WM_DELETE_WINDOW |
| Xlib.ConfigureSpec | zdl_xlib.c:638-675 | only the position, size and last configuration change; RECONFIGURE is returned exactly for this window when the size differs, with the new size stored |
| Xlib.SetFlagsSpec | zdl_xlib.c:289-348 | the flags become the requested ones; position, modifiers and last motion are kept; native calls are only appended |
| Xlib.SetSizeSpec | zdl_xlib.c:355-368 | while windowed the size changes with at most one request; while fullscreen only the masked size changes |
| Xlib.SetPositionSpec | zdl_xlib.c:376-389 | while windowed the position changes with at most one XMoveWindow(window, x, y); while fullscreen only the masked position changes |
| Xlib.SetPositionAsWritten | zdl_xlib.c:376-389 | the same state change, but the request logged is XMoveWindow(x, y, height) |
| Xlib.CreateSpec | zdl_xlib.c:235-278 | a new window has its handle, the WM_DELETE_WINDOW atom and no modifiers, and its first call creates the native window with the requested flags |
| Xlib.XlibWindow.constructor | zdl_xlib.c:235-252 | a new window record starts zeroed with the display's size |
| Xlib.XlibWindow.Translate | zdl_xlib.c:397-589 | the window state and result are `TranslateSpec` |
| Xlib.XlibWindow.Configure | zdl_xlib.c:638-675 | the window state and result are `ConfigureSpec` |
| Xlib.XlibWindow.ReadEvent | zdl_xlib.c:591-693 | the window state and result are `ReadEventSpec` |
| Xlib.XlibWindow.PollEvent | zdl_xlib.c:695-701 | with nothing pending it returns -1 and changes nothing; otherwise it reads one event; returns 0 exactly with a record |
| Xlib.XlibWindow.WaitEvent | zdl_xlib.c:703-706 | reads events until one yields a record, as `WaitSpec` |
| Xlib.XlibWindow.ApplyFullscreen | zdl_xlib.c:293-317 | the fullscreen step of set_flags, as `FullscreenStep` |
| Xlib.XlibWindow.SetFlags | zdl_xlib.c:289-348 | the window state becomes `SetFlagsSpec` of the old state |
| Xlib.XlibWindow.GetFlags | zdl_xlib.c:350-353 | returns the stored flags |
| Xlib.XlibWindow.SetSize | zdl_xlib.c:355-368 | the window state becomes `SetSizeSpec` of the old state |
| Xlib.XlibWindow.SetPosition | zdl_xlib.c:376-389 | the window state becomes `SetPositionSpec` (the corrected request) of the old state |
| Xlib.XlibWindow.GetSize | zdl_xlib.c:370-374 | returns the stored width and height |
| Xlib.XlibWindow.GetPosition | zdl_xlib.c:391-395 | returns the stored position |
| Xlib.XlibWindow.Swap | zdl_xlib.c:708-711 | logs one buffer swap and changes nothing else |
| Xlib.XlibWindow.Destroy | zdl_xlib.c:280-287 | logs the destruction of the native window and changes nothing else |
| Xlib.XlibWindow.SetTitle | zdl_xlib.c:713-725 | the window state becomes `SetTitleSpec` of the old state |
| Xlib.CreateWindow | zdl_xlib.c:235-278 | create fails exactly when the record cannot be allocated, the display cannot be opened or the window cannot be configured; otherwise the new window is in `CreateSpec` |
| DrmTty.ModifierCodes | zdl_drm.c:722-768 | exactly the codes of Ctrl, Shift, Alt and left Super give a modifier bit, each a single one; CapsLock gives none |
| DrmTty.FunctionKeyCodes | zdl_drm.c:727-738 | codes 0x3b..0x44, 0x57 and 0x58 are exactly the function keys, F1..F10, F11 and F12 |
| DrmTty.LayoutTableSizes | zdl_drm.c:505-560 | the ASCII and keysym layout tables have 128 entries each |
| DrmTty.KbdTranslate | zdl_drm.c:677-688 | the layout lookup fails exactly for codes of 64 and above |
| DrmTty.DecodeByte | zdl_drm.c:707-785 | the mask changes only for a key with modifier bits, and then a record is returned |
| DrmTty.DecodedRecords | zdl_drm.c:707-785 | an emitted record is a KEYPRESS exactly when the byte's high bit is clear; it keeps the raw byte as scancode, carries the updated mask, and a mapped code keeps its symbol |
| DrmTty.SymbolRecords | zdl_drm.c:758-785 | the same, for a byte already mapped to a symbol and its modifier bits |
| DrmTty.ModifierTracking | zdl_drm.c:758-779 | the mask is updated by the key's modifier bit; a modifier event is suppressed exactly when the mask does not change |
| DrmTty.SymbolModifiers | zdl_drm.c:770-779 | the same, for a byte already mapped to a symbol and its modifier bits |
| DrmTty.TableFallback | zdl_drm.c:781-784 | an unmapped code of 64 or more is skipped; below 64 it is looked up in the half of the layout chosen by Shift; a mapped key that is not a modifier has unicode 0 |
| DrmTty.LeadBytes | zdl_drm.c:716-721 | 0xe0 and 0xe2 are skipped, and 0xe1 is a release of right Ctrl, emitted only when right Ctrl was held |
| DrmTty.ReadSpec | zdl_drm.c:692-789 | a read consumes at most the bytes given, at least one when it returns a record, and all of them when it returns none |
| DrmTty.ReadSkipsSilentBytes | zdl_drm.c:692-789 | every byte a read consumes before the one that gives its record yields no record |
| DrmTty.ReadRecordIsDecoded | zdl_drm.c:692-789 | the record and mask a read returns are those of decoding its last consumed byte with the mask the bytes before it leave |
| DrmTty.ReadWithoutRecordMask | zdl_drm.c:692-789 | a read that returns no record leaves the mask all its bytes leave |
| DrmTty.Tty.constructor | zdl_drm.c:562-571 | a new tty has no modifiers held |
| DrmTty.Tty.ReadEvent | zdl_drm.c:692-789 | the read loop leaves the mask and returns the record and byte count of `ReadSpec`; returns 0 exactly with a record and -1 exactly without one |
| DrmClipboard.CopySpec | zdl_drm.c:955-989 | a null text, URI or pixel pointer, or a failed image allocation, returns -1; a copy that allocates owns one fresh block and stores the payload; one that does not leaves the heap alone |
| DrmClipboard.OpenSpec | zdl_drm.c:941-946 | a new handle remembers the window's payload address when the payload is text, and otherwise nothing |
| DrmClipboard.WriteAsWritten | zdl_drm.c:991-999 | the handle keeps the new copy's address and the result is 0 or -1; the heap is corrupted exactly when the handle's remembered block is not live; when the handle remembers the window's block it agrees with `WriteSpec` |
| DrmClipboard.WriteSpec | zdl_drm.c:991-999 | the handle keeps the new copy's address, which holds the caller's payload; the result is 0 or -1; the heap is corrupted exactly when the window's own block is not live |
| DrmClipboard.ReadSpec | zdl_drm.c:1001-1007 | read returns -1 exactly when the handle holds no data; otherwise it returns 0 and the window's payload |
| DrmClipboard.EmptyStoreOwnsEmptyHeap | zdl_drm.c:937-948 | a window starts with an empty payload and no memory, and a handle opened on it holds no data |
| DrmClipboard.WriteKeepsOwnership | zdl_drm.c:991-999 | the corrected write keeps the window the sole owner of the live heap, leaves the handle holding the window's memory, and after -1 holds no data |
| DrmClipboard.OpenAfterTextWrite | zdl_drm.c:937-948 | after a text write, both the writer and a newly opened handle read that text |
| DrmClipboard.ReadNeedsAddress | zdl_drm.c:1001-1007 | a handle without data reads -1; a write that kept data is read back unchanged |
| DrmClipboard.WriteAsWrittenDoubleFree | zdl_drm.c:991-999 | the code as written frees the same block twice when two handles write in turn; the corrected write keeps the heap consistent on the same sequence |
| DrmClipboard.WriteAsWrittenLeaks | zdl_drm.c:991-999 | as written, a handle opened before any write leaks the window's previous block |
| DrmClipboard.Heap.constructor | zdl_drm.c:937-948 | the heap starts empty |
| DrmClipboard.Heap.Alloc | zdl_drm.c:965-977 | `strdup`/`calloc` of the copy: the next fresh address becomes live, as `AllocSpec` |
| DrmClipboard.Heap.Free | zdl_drm.c:993-996 | `free`: the block stops being live, and freeing a block that is not live corrupts the heap, as `FreeSpec` |
| DrmClipboard.ClipboardStore.constructor | zdl_drm.c:791-801 | the window's payload starts empty |
| DrmClipboard.ClipboardStore.CopyFrom | zdl_drm.c:955-989 | the copy's result, payload and heap are `CopySpec` |
| DrmClipboard.Clipboard.constructor | zdl_drm.c:944-945 | the handle record refers to the window and remembers `OpenSpec` of its payload |
| DrmClipboard.Open | zdl_drm.c:937-948 | open returns the invalid (null) handle exactly when the calloc fails; otherwise a fresh handle on the window, as `OpenSpec` |
| DrmClipboard.Clipboard.Write | zdl_drm.c:991-999 | handle, payload, heap and result become the corrected `WriteSpec` |
| DrmClipboard.Clipboard.Read | zdl_drm.c:1001-1007 | result and payload are `ReadSpec` |
| Drm.FirstWhere | zdl_drm.c:95-129 | the first-match search of the connector and encoder loops: the index of the first element that satisfies the test, none only when no element does |
| Drm.LargestMode | zdl_drm.c:131-146 | the running-maximum search: none exactly when every area is 0; otherwise the first mode of strictly largest area |
| Drm.SelectConnector | zdl_drm.c:95-111 | returns the first connector that is connected and has modes, or none when there is no such connector |
| Drm.SelectEncoder | zdl_drm.c:113-129 | returns the first encoder with the connector's encoder id, or none when there is no such encoder |
| Drm.SelectMode | zdl_drm.c:131-146 | returns the first mode of strictly largest area; none exactly when every area is 0 |
| Drm.ContextSpec | zdl_drm.c:70-166 | a context exists only when allocated, with master not refused and resources present; it records whether master was granted, a connected connector, an encoder with that connector's encoder id and one of its modes of positive area |
| Drm.CreateContext | zdl_drm.c:70-166 | returns `ContextSpec`: the searches in turn, then the allocation |
| Drm.ContextOutcome | zdl_drm.c:70-166 | creation succeeds exactly when master is not refused with EINVAL, the resources and the allocation are there, and the first usable connector has an encoder that drives it and a mode of positive area |
| Drm.ContextChoice | zdl_drm.c:70-166 | a created context records whether master was granted, the first usable connector, the first encoder with its encoder id, and the first mode of largest area, not a later mode of equal area |
| Drm.SuspendSpec | zdl_drm.c:456-465 | only the suspended flag and the log change; the result is 0 exactly with master rights, and then the surface is suspended |
| Drm.ResumeSpec | zdl_drm.c:467-476 | only the suspended flag and the log change; -1 exactly when suspended and master is refused, and 0 exactly when the surface ends not suspended |
| Drm.FlipDone | zdl_drm.c:417-430 | the corrected completion counts the frame, clears vsync, and leaves the drawn buffer and the scanned-out buffer distinct |
| Drm.FlipDoneAsWritten | zdl_drm.c:417-430 | as written, completion attaches the buffer being scanned out |
| Drm.SwapSpec | zdl_drm.c:483-497 | nothing while suspended; otherwise the frame advances once for a pending flip and once for a completed one, and vsync stays pending exactly when the new flip has not completed, with the corrected flip completion (see `FlipDoneAsWritten`) |
| Drm.SuspendResume | zdl_drm.c:456-476 | suspend fails without master rights and is idempotent; resume is a no-op when not suspended and returns -1 exactly when it stays suspended; suspend then resume drops and sets master and restores the state |
| Drm.SwapWhileSuspended | zdl_drm.c:483-497 | swap does nothing while suspended |
| Drm.SwapPresentsRenderedBuffer | zdl_drm.c:417-430 | with the corrected flip completion, the buffer drawn into is never the one on screen; each swap flips to the buffer just rendered, and waits for vsync until the flip completes |
| Drm.FlipDoneAsWrittenDrawsOnScreen | zdl_drm.c:417-430 | as written, flip completion attaches the buffer being scanned out, so the next frame is drawn on screen |
| Drm.EglContext.constructor | zdl_drm.c:345-350 | a new surface is not suspended, is at frame 0, draws into buffer 1 and scans out buffer 0 |
| Drm.EglContext.Suspend | zdl_drm.c:456-465 | state and result are `SuspendSpec` |
| Drm.EglContext.Resume | zdl_drm.c:467-476 | state and result are `ResumeSpec` |
| Drm.EglContext.Suspended | zdl_drm.c:478-481 | returns the suspended flag |
| Drm.EglContext.PageFlipDone | zdl_drm.c:417-430 | the corrected flip completion, as `FlipDone` |
| Drm.EglContext.Swap | zdl_drm.c:483-497 | the state becomes `SwapSpec` of the old state, with the corrected flip completion (see `FlipDoneAsWritten`) |
| Drm.HandleSpec | zdl_drm.c:878-894 | an event is consumed exactly when it is a VT-switch key; otherwise nothing changes; the mask is never changed |
| Drm.PumpSpec | zdl_drm.c:908-914 | the loop consumes at most the bytes given; it returns 0 exactly with a record and -1 without one; a returned record is never a VT-switch key for the VT then active |
| Drm.PumpPassesRecord | zdl_drm.c:908-912 | a tty record that is not a VT-switch key for the active VT is returned at once with result 0, the mask the read left and the VT unchanged |
| Drm.PumpWithoutRecordUsesAll | zdl_drm.c:908-912 | a pump that returns no record has consumed every byte |
| Drm.ReadEventSpec | zdl_drm.c:896-915 | a read consumes at most the bytes given and returns 0 exactly with a record |
| Drm.VtSwitching | zdl_drm.c:878-894 | Alt+F*n* is consumed exactly when VT *n* is not the active one; with master rights the surface suspends and VT *n* becomes active; without them nothing changes |
| Drm.ReadWhileSuspendedResumes | zdl_drm.c:900-906 | suspended and back on its own VT, a read resumes the surface and returns EXPOSE without reading a byte |
| Drm.ReadOnOtherVtPumps | zdl_drm.c:896-915 | every read that is not a resume (the surface not suspended, or another VT active) is the VT-switch read loop |
| Drm.DrmWindow.constructor | zdl_drm.c:803-833 | a new window takes the mode's size, FLIP_Y and the VT active at creation, with no modifiers and a fresh surface |
| Drm.DrmWindow.HandleEvent | zdl_drm.c:878-894 | window state, active VT and consumption are `HandleSpec` |
| Drm.DrmWindow.ReadEvent | zdl_drm.c:896-915 | window state and result are `ReadEventSpec` |
| Drm.DrmWindow.Pump | zdl_drm.c:908-914 | the loop leaves the window state and returns the result of `PumpSpec` |
| Drm.DrmWindow.PumpOnce | zdl_drm.c:909-912 | one tty read and VT check: either the loop's result, or the rest of the loop continues on the remaining bytes |
| Drm.DrmWindow.PollEvent | zdl_drm.c:917-920 | the non-blocking read, as `ReadEventSpec` |
| Drm.DrmWindow.WaitEvent | zdl_drm.c:922-925 | the blocking read; the record and new state of `ReadEventSpec` |
| Drm.DrmWindow.Swap | zdl_drm.c:927-930 | the surface becomes `SwapSpec` of the old one, with the corrected flip completion (see `FlipDoneAsWritten`) |
| Drm.DrmWindow.SetFlags | zdl_drm.c:848-851 | stores the flags with FLIP_Y added |
| Drm.DrmWindow.GetFlags | zdl_drm.c:853-856 | returns the stored flags |
| Drm.DrmWindow.GetSize | zdl_drm.c:862-866 | returns the stored size |
| Drm.DrmWindow.GetPosition | zdl_drm.c:872-876 | the window is always at the origin |
| Drm.FlipYAlwaysSet | zdl_drm.c:848-851 | whatever flags are set, FLIP_Y is kept and no other flag changes |
| Drm.CreateWindow | zdl_drm.c:803-833 | create fails exactly when the record cannot be allocated or the tty or the surface cannot be set up; otherwise the window is as the constructor states |

## Left out

- Native I/O is not modelled. Each native input becomes a parameter, and each native call is an entry in a ghost log. This covers:
  - graphics contexts: EGL, GLX, WGL and GL;
  - X11 requests and replies;
  - Win32 message pumping;
  - Android JNI, loopers, semaphores and threads;
  - tty termios and ioctl calls;
  - DRM mode-setting.
- Android threading is not modelled. The semaphore stack, the work queue, the activity callbacks and the application thread all exist to hand events between threads. The queue lock is a no-op here.
- Android clipboard, title and unicode lookup go through JNI and are not modelled. `KeyUnicode` treats the host's character as a parameter, except that DEL gives 8.
- Floating point is not modelled. Android pointer coordinates are floats truncated into ints; the model takes them as ints.
- Integer width is not modelled:
  - the DRM mode area (`hdisplay * vdisplay`) is unbounded here, so 32-bit overflow of the area is not captured;
  - the clipboard image byte count is not computed.
- Graphics setup and teardown are not modelled:
  - `egl_create` and its many failure paths are one parameter of window creation, the surface being absent or present;
  - `egl_destroy`, `drm_destroy` and `zdl_clipboard_close` are not modelled;
- The X11 helpers `zdl_window_reconfigure`, `zdl_window_set_hints` and `zdl_window_set_wm_state` appear only as logged calls. The same holds for the Win32 GL setup that WM_CREATE performs (`GlSetup` in the log of `Win32.CreateSpec`) and the GL teardown and `PostQuitMessage(0)` of WM_DESTROY (`DESTROY_CALLS`, logged by WM_CLOSE, WM_DESTROY and `Win32.Win32Window.Destroy`).
- The DRM backend's `set_title`, `set_size` and `set_position` are empty functions and are not modelled.
- The full keysym switch tables are data. The Win32 and X11 tables are written out only where the lemmas need them. Each table is a total function into the key symbols.
- Drm.HandleSpec: a VT switch is assumed to succeed, so the active VT becomes the requested one. The result of `tty_switch_vt` is not modelled.
- Drm.ReadEventSpec: in blocking mode at end of input, the C code passes the previous record to `zdl_handle_event` again. The model stops with no record instead.
- Drm.SwapSpec: `egl_swap` waits for the outstanding page flip. The model assumes that flip always completes (`AwaitFlip`). A flip that never arrives is not modelled.
- Android.AndroidApp.CreateWindow: create blocks until the window is exposed. The model only runs the callbacks it is given, so a create that would hang is one that runs out of callbacks, or one that popped EXIT, after which every wait returns ERROR (`exposed` false in both).
- Android.KeyRecord: an event record the C code leaves uninitialised (an action other than DOWN or UP) is the `stale` parameter of `KeyRecord`, `InputRecords` and `Android.AndroidApp.HandleInput`. For a mouse-source DOWN or UP the C code writes only the type and `button.modifiers`, leaving button, x and y as the stack held; the model sets them to 0.
- Android.KeyRecord: the table index uses a 64-bit `size_t` (arm64-v8a, x86_64). On 32-bit ABIs a negative code selects another entry; `NegativeKeyCodeWraps` gives both.
- Android.AndroidApp.HandleEvent: a content-rect change with no window, which is a null dereference in C, is the `fault` result.
- DrmClipboard.OpenSpec: the header does not give the layout of the payload union. A handle opened on a payload that is not text is taken to remember no address.
- test.cpp is a demonstration render loop, not library logic, and is not modelled.

## Findings

| source | as written | input that shows it | evidently intended | confidence | as-written member | corrected member |
|---|---|---|---|---|---|---|
| zdl_xlib.c:384 | `XMoveWindow(d, w->x, w->y, w->height)`: the window argument is the x coordinate and the coordinates are y and the height | a windowed window 0x400001 at (0, 0) of height 480 moved to (10, 20) sends XMoveWindow(10, 20, 480) | `XMoveWindow(d, window, x, y)` with the new position | high (not executed) | Xlib.SetPositionAsWrittenMissesWindow, Xlib.SetPositionAsWrittenExample | Xlib.GeometryRequests, Xlib.XlibWindow.SetPosition |
| zdl_drm.c:991-999 | `zdl_clipboard_write` frees the block its handle last saw, which the window may have replaced and another handle may free too | open handle A on an empty clipboard; A writes "a" into block 0; open handle B, which remembers block 0; B writes "b", freeing block 0; A writes "c" and frees block 0 again | free the block the window currently owns, so that each block is freed once | high (not executed) | DrmClipboard.WriteAsWrittenDoubleFree, DrmClipboard.WriteAsWrittenLeaks | DrmClipboard.WriteKeepsOwnership, DrmClipboard.Clipboard.Write |
| zdl_drm.c:417-430 | on flip completion the render target becomes `rb[frame % 2]`, the buffer just flipped to the screen | the first swap on a new surface flips buffer 1; completion then attaches buffer 1, which is being scanned out | attach `rb[1 - frame % 2]`, the buffer not on screen, as `egl_swap` assumes when it flips to `rb[1 - frame % 2]` | medium (not executed) | Drm.FlipDoneAsWrittenDrawsOnScreen | Drm.SwapPresentsRenderedBuffer, Drm.EglContext.PageFlipDone |
