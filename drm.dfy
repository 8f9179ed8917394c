/**
 * The DRM/KMS backend (zdl_drm.c) apart from its keyboard decoder and
 * clipboard: choosing the output in `drm_create`, the surface's
 * suspend/resume and double-buffering state, and the window's event
 * reads, which intercept Alt+F<n> to switch virtual terminals.
 *
 * DRM, EGL, GL and tty ioctls are not modelled; each one the state
 * logic issues is appended to a ghost log, and what they report back
 * (the active virtual terminal, whether master is granted, whether a
 * page flip has completed) is an input.
 */
module Drm {
  import opened Zdl
  import opened DrmTty
  import opened DrmClipboard

  // ---- drm_create: connector, encoder and mode selection ----

  /** The part of `drmModeModeInfo` selection reads. */
  datatype ModeInfo = ModeInfo(hdisplay: nat, vdisplay: nat)

  function Area(m: ModeInfo): nat
  {
    m.hdisplay * m.vdisplay
  }

  datatype Connector = Connector(id: nat, connected: bool, encoderId: nat, modes: seq<ModeInfo>)

  datatype Encoder = Encoder(id: nat, crtcId: nat)

  /** A connector that could be read, is connected and offers at least one mode. */
  predicate Usable(c: Option<Connector>)
  {
    c.Some? && c.value.connected && |c.value.modes| > 0
  }

  predicate Drives(e: Option<Encoder>, encoderId: nat)
  {
    e.Some? && e.value.id == encoderId
  }

  /** The index of the first element that satisfies `p`: the search loops of `drm_create`. */
  function FirstWhere<T>(s: seq<T>, p: T -> bool): (r: Option<nat>)
    ensures r.Some? ==> r.value < |s| && p(s[r.value])
    ensures r.Some? ==> forall j :: 0 <= j < r.value ==> !p(s[j])
    ensures r.None? ==> forall j :: 0 <= j < |s| ==> !p(s[j])
  {
    if s == [] then None
    else if p(s[0]) then Some(0)
    else
      match FirstWhere(s[1..], p)
      case None => None
      case Some(i) => Some(i + 1)
  }

  /**
   * The index the running-maximum mode search ends on: the last mode
   * whose area beats every area before it, starting from 0.
   */
  function LargestMode(modes: seq<ModeInfo>): (r: Option<nat>)
    ensures r.None? <==> forall j :: 0 <= j < |modes| ==> Area(modes[j]) == 0
    ensures r.Some? ==> r.value < |modes| && Area(modes[r.value]) > 0
    ensures r.Some? ==> forall j :: 0 <= j < |modes| ==> Area(modes[j]) <= Area(modes[r.value])
    ensures r.Some? ==> forall j :: 0 <= j < r.value ==> Area(modes[j]) < Area(modes[r.value])
  {
    if modes == [] then None
    else
      var best := LargestMode(modes[..|modes| - 1]);
      var area := if best.None? then 0 else Area(modes[best.value]);
      if Area(modes[|modes| - 1]) > area then Some(|modes| - 1) else best
  }

  /** The first usable connector (None stands for a connector `drmModeGetConnector` could not read). */
  method SelectConnector(connectors: seq<Option<Connector>>) returns (index: Option<nat>)
    ensures index.Some? ==> index.value < |connectors| && Usable(connectors[index.value])
    ensures index.Some? ==> forall j :: 0 <= j < index.value ==> !Usable(connectors[j])
    ensures index.None? ==> forall j :: 0 <= j < |connectors| ==> !Usable(connectors[j])
    ensures index == FirstWhere(connectors, Usable)
  {
    var i := 0;
    while i < |connectors|
      invariant 0 <= i <= |connectors|
      invariant forall j :: 0 <= j < i ==> !Usable(connectors[j])
    {
      if Usable(connectors[i]) {
        return Some(i);
      }
      i := i + 1;
    }
    return None;
  }

  /** The first encoder whose id is the connector's encoder id. */
  method SelectEncoder(encoders: seq<Option<Encoder>>, encoderId: nat) returns (index: Option<nat>)
    ensures index.Some? ==> index.value < |encoders| && Drives(encoders[index.value], encoderId)
    ensures index.Some? ==> forall j :: 0 <= j < index.value ==> !Drives(encoders[j], encoderId)
    ensures index.None? ==> forall j :: 0 <= j < |encoders| ==> !Drives(encoders[j], encoderId)
    ensures index == FirstWhere(encoders, e => Drives(e, encoderId))
  {
    var i := 0;
    while i < |encoders|
      invariant 0 <= i <= |encoders|
      invariant forall j :: 0 <= j < i ==> !Drives(encoders[j], encoderId)
    {
      if Drives(encoders[i], encoderId) {
        return Some(i);
      }
      i := i + 1;
    }
    return None;
  }

  /**
   * The mode with the largest area, the first one on a tie; None when
   * every mode has area 0, since the running maximum starts at 0 and
   * only a strictly larger area replaces it.
   */
  method SelectMode(modes: seq<ModeInfo>) returns (index: Option<nat>)
    ensures index.None? <==> forall j :: 0 <= j < |modes| ==> Area(modes[j]) == 0
    ensures index.Some? ==> index.value < |modes| && Area(modes[index.value]) > 0
    ensures index.Some? ==> forall j :: 0 <= j < |modes| ==> Area(modes[j]) <= Area(modes[index.value])
    ensures index.Some? ==> forall j :: 0 <= j < index.value ==> Area(modes[j]) < Area(modes[index.value])
    ensures index == LargestMode(modes)
  {
    var area := 0;
    index := None;
    for i := 0 to |modes|
      invariant index.None? ==> area == 0 && forall j :: 0 <= j < i ==> Area(modes[j]) == 0
      invariant index.Some? ==> index.value < i && area == Area(modes[index.value]) > 0
      invariant forall j :: 0 <= j < i ==> Area(modes[j]) <= area
      invariant index.Some? ==> forall j :: 0 <= j < index.value ==> Area(modes[j]) < area
    {
      if Area(modes[i]) > area {
        index := Some(i);
        area := Area(modes[i]);
      }
    }
  }

  /** What `drmSetMaster` reports: granted, refused with EINVAL (fatal), or refused otherwise. */
  datatype MasterResult = MasterGranted | MasterInvalid | MasterBusy

  /** `struct drm_context`: the chosen output and whether this process may take display master. */
  datatype DrmContext = DrmContext(canMaster: bool, connector: Connector, encoder: Encoder, mode: ModeInfo)

  /**
   * `drm_create`. `resources` is what `drmModeGetResources` returns
   * (None when it fails): the connectors and the encoders. Creation fails
   * on EINVAL from `drmSetMaster`, without resources, without a usable
   * connector, without its encoder, without a mode of positive area, or
   * when the context cannot be allocated (`allocOk` false); otherwise it
   * keeps the first usable connector, the first encoder that drives it
   * and the mode the running-maximum search ends on.
   */
  function ContextSpec(master: MasterResult, resources: Option<(seq<Option<Connector>>, seq<Option<Encoder>>)>,
                       allocOk: bool): (r: Option<DrmContext>)
    ensures r.Some? ==> allocOk && master != MasterInvalid && resources.Some?
    ensures r.Some? ==> r.value.canMaster == (master == MasterGranted)
    ensures r.Some? ==> r.value.connector.connected && r.value.encoder.id == r.value.connector.encoderId
    ensures r.Some? ==> r.value.mode in r.value.connector.modes && Area(r.value.mode) > 0
  {
    if master == MasterInvalid || resources.None? then None
    else
      var (connectors, encoders) := resources.value;
      match FirstWhere(connectors, Usable)
      case None => None
      case Some(c) =>
        var connector := connectors[c].value;
        match FirstWhere(encoders, e => Drives(e, connector.encoderId))
        case None => None
        case Some(e) =>
          match LargestMode(connector.modes)
          case None => None
          case Some(m) =>
            if !allocOk then None
            else Some(DrmContext(master == MasterGranted, connector, encoders[e].value, connector.modes[m]))
  }

  /**
   * Creation succeeds exactly when master is not refused with EINVAL,
   * the resources and the allocation are there, and the first usable
   * connector has an encoder that drives it and a mode of positive area.
   */
  lemma ContextOutcome(master: MasterResult, resources: Option<(seq<Option<Connector>>, seq<Option<Encoder>>)>,
                       allocOk: bool)
    ensures ContextSpec(master, resources, allocOk).Some? <==>
              master != MasterInvalid && resources.Some? && allocOk &&
              exists i :: 0 <= i < |resources.value.0| && Usable(resources.value.0[i]) &&
                (forall j :: 0 <= j < i ==> !Usable(resources.value.0[j])) &&
                (exists k :: 0 <= k < |resources.value.1| &&
                   Drives(resources.value.1[k], resources.value.0[i].value.encoderId)) &&
                (exists m :: m in resources.value.0[i].value.modes && Area(m) > 0)
  {
  }

  /**
   * A created context holds whether master was granted, the first usable
   * connector, the first encoder with that connector's encoder id, and
   * the first mode of largest area: a later mode of equal area is not
   * chosen.
   */
  lemma ContextChoice(master: MasterResult, resources: Option<(seq<Option<Connector>>, seq<Option<Encoder>>)>,
                      allocOk: bool)
    ensures var ctx := ContextSpec(master, resources, allocOk);
            ctx.Some? ==> resources.Some? && (ctx.value.canMaster <==> master == MasterGranted)
    ensures var ctx := ContextSpec(master, resources, allocOk);
            ctx.Some? ==> exists i :: 0 <= i < |resources.value.0| && resources.value.0[i] == Some(ctx.value.connector) &&
                           Usable(resources.value.0[i]) && forall j :: 0 <= j < i ==> !Usable(resources.value.0[j])
    ensures var ctx := ContextSpec(master, resources, allocOk);
            ctx.Some? ==> exists k :: 0 <= k < |resources.value.1| && resources.value.1[k] == Some(ctx.value.encoder) &&
                           ctx.value.encoder.id == ctx.value.connector.encoderId &&
                           forall j :: 0 <= j < k ==> !Drives(resources.value.1[j], ctx.value.connector.encoderId)
    ensures var ctx := ContextSpec(master, resources, allocOk);
            ctx.Some? ==> var modes := ctx.value.connector.modes;
                          exists n :: 0 <= n < |modes| && modes[n] == ctx.value.mode && Area(modes[n]) > 0 &&
                            (forall j :: 0 <= j < |modes| ==> Area(modes[j]) <= Area(modes[n])) &&
                            forall j :: 0 <= j < n ==> Area(modes[j]) < Area(modes[n])
  {
    if ContextSpec(master, resources, allocOk).Some? {
      var (connectors, encoders) := resources.value;
      var c := FirstWhere(connectors, Usable).value;
      var connector := connectors[c].value;
      var e := FirstWhere(encoders, e => Drives(e, connector.encoderId)).value;
      var n := LargestMode(connector.modes).value;
      assert ContextSpec(master, resources, allocOk).value ==
             DrmContext(master == MasterGranted, connector, encoders[e].value, connector.modes[n]);
      assert connectors[c] == Some(connector);
      assert encoders[e] == Some(encoders[e].value) && Drives(encoders[e], connector.encoderId);
    }
  }

  /** `drm_create` itself: the searches in turn, then the allocation. */
  method CreateContext(master: MasterResult, resources: Option<(seq<Option<Connector>>, seq<Option<Encoder>>)>,
                       allocOk: bool)
    returns (ctx: Option<DrmContext>)
    ensures ctx == ContextSpec(master, resources, allocOk)
    ensures master == MasterInvalid || resources.None? || !allocOk ==> ctx.None?
    ensures resources.Some? && (forall j :: 0 <= j < |resources.value.0| ==> !Usable(resources.value.0[j])) ==>
              ctx.None?
    ensures ctx.Some? ==> (ctx.value.canMaster <==> master == MasterGranted)
    ensures ctx.Some? ==> (resources.Some? && Some(ctx.value.connector) in resources.value.0 &&
                           Usable(Some(ctx.value.connector)))
    ensures ctx.Some? ==> (resources.Some? && Some(ctx.value.encoder) in resources.value.1 &&
                           ctx.value.encoder.id == ctx.value.connector.encoderId)
    ensures ctx.Some? ==> (ctx.value.mode in ctx.value.connector.modes && Area(ctx.value.mode) > 0 &&
                           forall m :: m in ctx.value.connector.modes ==> Area(m) <= Area(ctx.value.mode))
  {
    if master == MasterInvalid || resources.None? {
      return None;
    }
    var (connectors, encoders) := resources.value;
    var c := SelectConnector(connectors);
    if c.None? {
      return None;
    }
    var connector := connectors[c.value].value;
    var e := SelectEncoder(encoders, connector.encoderId);
    if e.None? {
      return None;
    }
    var m := SelectMode(connector.modes);
    if m.None? || !allocOk {
      return None;
    }
    ctx := Some(DrmContext(master == MasterGranted, connector, encoders[e.value].value, connector.modes[m.value]));
  }

  // ---- the EGL surface ----

  /** The device requests the surface logic issues. */
  datatype DrmCall =
    | DropMaster
    | SetMaster
    | Flush
    | PageFlip(buffer: nat)
    | AttachBuffer(buffer: nat)

  /**
   * The surface state: whether master may be taken, the `suspended`,
   * `frame` and `vsync` fields, and, as device state, the render buffer
   * GL draws into and the buffer the display scans out.
   */
  datatype EglState = EglState(canMaster: bool, suspended: bool, frame: nat, vsync: bool,
                               attached: nat, scanout: nat, calls: seq<DrmCall>)

  /**
   * The state `egl_create` leaves: both buffers are set up in turn, so
   * the second stays attached, and the first is put on the display.
   */
  function CreatedEgl(canMaster: bool): EglState
  {
    EglState(canMaster, false, 0, false, 1, 0, [])
  }

  /** `egl_suspend`: fails without the right to take master, does nothing when already suspended. */
  function SuspendSpec(e: EglState): (r: (EglState, int))
    ensures r.0 == e.(suspended := r.0.suspended, calls := r.0.calls)
    ensures r.1 == 0 <==> e.canMaster
    ensures r.1 == -1 <==> !e.canMaster
    ensures r.1 == 0 ==> r.0.suspended
  {
    if !e.canMaster then (e, -1)
    else if e.suspended then (e, 0)
    else (e.(suspended := true, calls := e.calls + [DropMaster]), 0)
  }

  /**
   * `egl_resume`: nothing to do when not suspended; otherwise master is
   * requested and the surface stays suspended exactly when that fails
   * with EINVAL (`refused`).
   */
  function ResumeSpec(e: EglState, refused: bool): (r: (EglState, int))
    ensures r.0 == e.(suspended := r.0.suspended, calls := r.0.calls)
    ensures r.1 == -1 <==> e.suspended && refused
    ensures r.1 == 0 <==> !r.0.suspended
    ensures r.1 == 0 || r.1 == -1
  {
    if !e.suspended then (e, 0)
    else (e.(suspended := refused, calls := e.calls + [SetMaster]), if refused then -1 else 0)
  }

  /**
   * The page-flip handler as written: it counts the frame and attaches
   * buffer `frame % 2` of the new count, which is the buffer the flip has
   * just put on the display.
   */
  function FlipDoneAsWritten(e: EglState): (t: EglState)
    ensures t.frame == e.frame + 1 && !t.vsync
    ensures t.attached == t.scanout
  {
    var frame := e.frame + 1;
    e.(vsync := false, frame := frame, attached := frame % 2, scanout := 1 - e.frame % 2,
       calls := e.calls + [AttachBuffer(frame % 2)])
  }

  /** The page-flip handler as evidently intended: it attaches the buffer that went off the display. */
  function FlipDone(e: EglState): (t: EglState)
    ensures t.frame == e.frame + 1 && !t.vsync
    ensures t.attached < 2 && t.scanout < 2 && t.attached != t.scanout
    ensures t.canMaster == e.canMaster && t.suspended == e.suspended
  {
    var frame := e.frame + 1;
    e.(vsync := false, frame := frame, attached := 1 - frame % 2, scanout := 1 - e.frame % 2,
       calls := e.calls + [AttachBuffer(1 - frame % 2)])
  }

  /** The flip `egl_swap` waits for before queueing another one. */
  function AwaitFlip(e: EglState): EglState
  {
    if e.vsync then FlipDone(e) else e
  }

  /**
   * `egl_swap`: nothing while suspended; otherwise wait for a pending
   * flip, flush, queue a flip to buffer `1 - frame % 2`, and poll once,
   * `flipDone` telling whether that poll sees the flip complete. Both
   * completions are the corrected `FlipDone` (see `FlipDoneAsWritten`).
   */
  function SwapSpec(e: EglState, flipDone: bool): (t: EglState)
    ensures t.canMaster == e.canMaster && t.suspended == e.suspended
    ensures e.suspended ==> t == e
    ensures !e.suspended ==> t.vsync == !flipDone
    ensures !e.suspended ==> t.frame == e.frame + (if e.vsync then 1 else 0) + (if flipDone then 1 else 0)
  {
    if e.suspended then e
    else
      var e1 := AwaitFlip(e);
      var e2 := e1.(vsync := true, calls := e1.calls + [Flush, PageFlip(1 - e1.frame % 2)]);
      if flipDone then FlipDone(e2) else e2
  }

  /** `resume` undoes `suspend` when master is granted back, and each reports failure as -1. */
  lemma SuspendResume(e: EglState, refused: bool)
    ensures !e.canMaster ==> SuspendSpec(e) == (e, -1)
    ensures e.canMaster ==> SuspendSpec(e).1 == 0 && SuspendSpec(e).0.suspended
    ensures e.suspended ==> SuspendSpec(e).0 == e
    ensures !e.suspended ==> ResumeSpec(e, refused) == (e, 0)
    ensures e.suspended ==> (ResumeSpec(e, refused).1 == -1 <==> ResumeSpec(e, refused).0.suspended)
    ensures e.canMaster && !e.suspended ==>
              ResumeSpec(SuspendSpec(e).0, false).0 == e.(calls := e.calls + [DropMaster, SetMaster])
  {
  }

  /** `swap` does nothing at all while the surface is suspended. */
  lemma SwapWhileSuspended(e: EglState, flipDone: bool)
    requires e.suspended
    ensures SwapSpec(e, flipDone) == e
  {
  }

  /**
   * GL draws into one buffer while the display shows the other, and the
   * frame counter's parity says which is which.
   */
  predicate DoubleBuffered(e: EglState)
  {
    e.scanout == e.frame % 2 && e.attached == 1 - e.frame % 2
  }

  /**
   * With the intended page-flip handler, every swap queues a flip of the
   * buffer GL drew into, never of the one on the display, and the two
   * buffers keep their roles across any number of swaps.
   */
  lemma SwapPresentsRenderedBuffer(e: EglState, flipDone: bool)
    requires DoubleBuffered(e)
    ensures DoubleBuffered(CreatedEgl(e.canMaster))
    ensures DoubleBuffered(SwapSpec(e, flipDone))
    ensures !e.suspended ==>
              var e1 := AwaitFlip(e);
              e1.attached != e1.scanout &&
              SwapSpec(e, flipDone).calls[|e1.calls| + 1] == PageFlip(e1.attached)
    ensures !e.suspended ==> SwapSpec(e, flipDone).vsync == !flipDone
  {
  }

  /**
   * As written, the first completed flip leaves GL drawing into the
   * buffer on the display: from the state `egl_create` leaves, one swap
   * and its page-flip event attach buffer 1 while buffer 1 is scanned out.
   */
  lemma FlipDoneAsWrittenDrawsOnScreen(e: EglState)
    requires DoubleBuffered(e)
    ensures FlipDoneAsWritten(e).attached == FlipDoneAsWritten(e).scanout
    ensures var queued := SwapSpec(CreatedEgl(true), false);
            queued.calls == [Flush, PageFlip(1)] &&
            FlipDoneAsWritten(queued).attached == 1 && FlipDoneAsWritten(queued).scanout == 1
  {
  }

  /** `struct egl_context`, as far as its state goes. */
  class EglContext {
    const canMaster: bool
    var suspended: bool
    var frame: nat
    var vsync: bool
    ghost var attached: nat
    ghost var scanout: nat
    ghost var calls: seq<DrmCall>

    ghost function State(): EglState
      reads this
    {
      EglState(canMaster, suspended, frame, vsync, attached, scanout, calls)
    }

    constructor(canMaster: bool)
      ensures State() == CreatedEgl(canMaster)
    {
      this.canMaster := canMaster;
      suspended, frame, vsync := false, 0, false;
      attached, scanout, calls := 1, 0, [];
    }

    method Suspend() returns (rc: int)
      modifies this
      ensures (State(), rc) == SuspendSpec(old(State()))
    {
      if !canMaster {
        return -1;
      }
      if suspended {
        return 0;
      }
      calls := calls + [DropMaster];
      suspended := true;
      return 0;
    }

    method Resume(refused: bool) returns (rc: int)
      modifies this
      ensures (State(), rc) == ResumeSpec(old(State()), refused)
    {
      if !suspended {
        return 0;
      }
      calls := calls + [SetMaster];
      suspended := refused;
      rc := if suspended then -1 else 0;
    }

    method Suspended() returns (r: bool)
      ensures r == suspended
    {
      r := suspended;
    }

    /** `egl_page_flip`, with the intended buffer (see FlipDoneAsWritten). */
    method PageFlipDone()
      modifies this
      ensures State() == FlipDone(old(State()))
    {
      scanout := 1 - frame % 2;
      frame := frame + 1;
      vsync := false;
      attached := 1 - frame % 2;
      calls := calls + [AttachBuffer(1 - frame % 2)];
    }

    /** `egl_swap`, with the corrected flip completion (see `FlipDoneAsWritten`). */
    method Swap(flipDone: bool)
      modifies this
      ensures State() == SwapSpec(old(State()), flipDone)
    {
      if suspended {
        return;
      }
      if vsync {
        PageFlipDone();
      }
      calls := calls + [Flush, PageFlip(1 - frame % 2)];
      vsync := true;
      if flipDone {
        PageFlipDone();
      }
    }
  }

  // ---- the window: VT switching and event reads ----

  /** The state a read can change: the decoder's mask, the surface and the VT switches issued. */
  datatype DrmState = DrmState(keymod: Mask, egl: EglState, vtSwitches: seq<int>)

  /** A key record `zdl_handle_event` intercepts while `active` is the active VT. */
  predicate VtSwitchKey(ev: Event, active: int)
  {
    ev.KeyPress? && ev.key.modifiers & KEYMOD_ALT != 0 && IsFunctionKey(ev.key.sym) &&
    FunctionKeyNumber(ev.key.sym) != active
  }

  /**
   * `zdl_handle_event`: an Alt+F<n> press for another VT is consumed; the
   * surface is suspended and, if that succeeds, VT n is activated.
   * Results: the new state, the active VT afterwards, and whether the
   * record was consumed (the C function returns 0).
   */
  function HandleSpec(s: DrmState, active: int, ev: Event): (r: (DrmState, int, bool))
    ensures r.2 <==> VtSwitchKey(ev, active)
    ensures !r.2 ==> r.0 == s && r.1 == active
    ensures r.0.keymod == s.keymod
  {
    if !VtSwitchKey(ev, active) then (s, active, false)
    else
      var vt := FunctionKeyNumber(ev.key.sym);
      var (e, rc) := SuspendSpec(s.egl);
      if rc == 0 then (s.(egl := e, vtSwitches := s.vtSwitches + [vt]), vt, true)
      else (s.(egl := e), active, true)
  }

  /**
   * The `do ... while` loop of `zdl_read_event`: records are read from
   * the tty until one is not intercepted. Results: the new state, the
   * result code, the record, the bytes consumed and the active VT.
   */
  function PumpSpec(s: DrmState, active: int, bytes: seq<Byte>): (r: (DrmState, int, Option<Event>, nat, int))
    ensures r.3 <= |bytes|
    ensures r.1 == 0 <==> r.2.Some?
    ensures r.1 == -1 <==> r.2.None?
    ensures r.2.Some? ==> !VtSwitchKey(r.2.value, r.4)
    decreases |bytes|
  {
    var t := DrmTty.ReadSpec(s.keymod, bytes);
    var s1 := s.(keymod := t.0);
    if t.1.None? then (s1, -1, None, t.2, active)
    else
      var h := HandleSpec(s1, active, t.1.value);
      if !h.2 then (s1, 0, t.1, t.2, active)
      else
        Shifted(PumpSpec(h.0, h.1, bytes[t.2..]), t.2)
  }

  lemma ShiftedTwice(r: (DrmState, int, Option<Event>, nat, int), j: nat, k: nat)
    ensures Shifted(Shifted(r, j), k) == Shifted(r, j + k)
  {
  }

  /** A pump result with `k` more bytes counted as consumed. */
  function Shifted(r: (DrmState, int, Option<Event>, nat, int), k: nat): (DrmState, int, Option<Event>, nat, int)
  {
    (r.0, r.1, r.2, r.3 + k, r.4)
  }

  /**
   * A tty record that is not a VT-switch key for the active VT reaches
   * the caller at once, with the mask the read left and the VT unchanged.
   */
  lemma PumpPassesRecord(s: DrmState, active: int, bytes: seq<Byte>)
    ensures var t := DrmTty.ReadSpec(s.keymod, bytes);
            t.1.Some? && !VtSwitchKey(t.1.value, active) ==>
              PumpSpec(s, active, bytes) == (s.(keymod := t.0), 0, t.1, t.2, active)
  {
  }

  /** A pump that returns no record has read every byte it was given. */
  lemma {:induction false} PumpWithoutRecordUsesAll(s: DrmState, active: int, bytes: seq<Byte>)
    ensures PumpSpec(s, active, bytes).2.None? ==> PumpSpec(s, active, bytes).3 == |bytes|
    decreases |bytes|
  {
    var t := DrmTty.ReadSpec(s.keymod, bytes);
    if t.1.Some? {
      var h := HandleSpec(s.(keymod := t.0), active, t.1.value);
      if h.2 {
        PumpWithoutRecordUsesAll(h.0, h.1, bytes[t.2..]);
      }
    }
  }

  /**
   * `zdl_read_event`: while suspended and back on its own VT the window
   * resumes the surface and reports EXPOSE without reading; otherwise it
   * pumps the tty.
   */
  function ReadEventSpec(s: DrmState, ownVt: int, active: int, refused: bool, bytes: seq<Byte>)
    : (r: (DrmState, int, Option<Event>, nat))
    ensures r.3 <= |bytes|
    ensures r.1 == 0 <==> r.2.Some?
  {
    if s.egl.suspended && active == ownVt then
      (s.(egl := ResumeSpec(s.egl, refused).0), 0, Some(Expose), 0)
    else
      var p := PumpSpec(s, active, bytes);
      (p.0, p.1, p.2, p.3)
  }

  /**
   * Alt+F<n> is intercepted only as a press with Alt held, and only for
   * another VT: then the surface suspends and, when that works, VT n is
   * activated. An Alt+F<n> for the active VT reaches the caller.
   */
  lemma VtSwitching(s: DrmState, active: int, ev: Event)
    ensures var r := HandleSpec(s, active, ev);
            (ev.KeyPress? && ev.key.modifiers & KEYMOD_ALT != 0 && IsFunctionKey(ev.key.sym) ==>
               (r.2 <==> FunctionKeyNumber(ev.key.sym) != active)) &&
            (r.2 && s.egl.canMaster ==>
               r.0.egl.suspended && r.1 == FunctionKeyNumber(ev.key.sym) &&
               r.0.vtSwitches == s.vtSwitches + [r.1]) &&
            (r.2 && !s.egl.canMaster ==> r.0 == s && r.1 == active)
  {
  }

  /**
   * A read while suspended on the window's own VT consumes no byte,
   * resumes the surface and returns EXPOSE; the surface stays suspended
   * only if master is refused again.
   */
  lemma ReadWhileSuspendedResumes(s: DrmState, ownVt: int, refused: bool, bytes: seq<Byte>)
    requires s.egl.suspended
    ensures var r := ReadEventSpec(s, ownVt, ownVt, refused, bytes);
            r.1 == 0 && r.2 == Some(Expose) && r.3 == 0 &&
            r.0.keymod == s.keymod && (r.0.egl.suspended <==> refused)
  {
  }

  /** A read that is not a resume (not suspended, or on another VT) reads the tty as usual. */
  lemma ReadOnOtherVtPumps(s: DrmState, ownVt: int, active: int, refused: bool, bytes: seq<Byte>)
    requires !s.egl.suspended || active != ownVt
    ensures var r := ReadEventSpec(s, ownVt, active, refused, bytes);
            var p := PumpSpec(s, active, bytes);
            r == (p.0, p.1, p.2, p.3)
  {
  }

  /** `struct zdl_window` of the DRM backend. */
  class DrmWindow {
    const ownVt: int
    var width: int
    var height: int
    var flags: Mask
    const tty: Tty
    const context: EglContext
    const clipboard: ClipboardStore
    ghost var vtSwitches: seq<int>

    ghost function State(): DrmState
      reads this, tty, context
    {
      DrmState(tty.keymod, context.State(), vtSwitches)
    }

    /**
     * `zdl_window_create` once the tty and the surface exist: the window
     * takes the mode's size, adds FLIP_Y to the flags and remembers the
     * VT it was started on.
     */
    constructor(flags: Mask, ctx: DrmContext, active: int)
      ensures ownVt == active
      ensures width == ctx.mode.hdisplay && height == ctx.mode.vdisplay
      ensures this.flags == flags | FLAG_FLIP_Y
      ensures fresh(tty) && fresh(context) && fresh(clipboard)
      ensures State() == DrmState(KEYMOD_NONE, CreatedEgl(ctx.canMaster), [])
      ensures clipboard.State() == StoreState(TextData(None), None)
    {
      ownVt := active;
      width, height := ctx.mode.hdisplay, ctx.mode.vdisplay;
      this.flags := flags | FLAG_FLIP_Y;
      tty := new Tty();
      context := new EglContext(ctx.canMaster);
      clipboard := new ClipboardStore();
      vtSwitches := [];
    }

    method HandleEvent(ev: Event, active: int) returns (consumed: bool, activeAfter: int)
      modifies this, context
      ensures (State(), activeAfter, consumed) == HandleSpec(old(State()), active, ev)
    {
      activeAfter := active;
      if !VtSwitchKey(ev, active) {
        return false, active;
      }
      var vt := FunctionKeyNumber(ev.key.sym);
      var rc := context.Suspend();
      if rc == 0 {
        vtSwitches := vtSwitches + [vt];
        activeAfter := vt;
      }
      consumed := true;
    }

    /**
     * `zdl_read_event`: `active` is the VT the kernel reports, `refused`
     * whether a resume's master request fails with EINVAL, and `bytes`
     * what the tty delivers.
     */
    method ReadEvent(active: int, refused: bool, bytes: seq<Byte>) returns (rc: int, ev: Option<Event>, used: nat)
      modifies this, tty, context
      ensures (State(), rc, ev, used) == ReadEventSpec(old(State()), ownVt, active, refused, bytes)
    {
      var suspended := context.Suspended();
      if suspended && active == ownVt {
        var _ := context.Resume(refused);
        return 0, Some(Expose), 0;
      }
      var activeAfter;
      rc, ev, used, activeAfter := Pump(active, bytes);
    }

    /** The `do ... while` loop of `zdl_read_event`, which also returns the VT active afterwards. */
    method Pump(active: int, bytes: seq<Byte>) returns (rc: int, ev: Option<Event>, used: nat, activeAfter: int)
      modifies this, tty, context
      ensures (State(), rc, ev, used, activeAfter) == PumpSpec(old(State()), active, bytes)
    {
      activeAfter := active;
      used := 0;
      while true
        invariant used <= |bytes|
        invariant PumpSpec(old(State()), active, bytes) == Shifted(PumpSpec(State(), activeAfter, bytes[used..]), used)
        decreases |bytes| - used
      {
        var rest := bytes[used..];
        var n, again;
        rc, ev, n, activeAfter, again := PumpOnce(activeAfter, rest);
        if !again {
          assert PumpSpec(old(State()), active, bytes) == Shifted((State(), rc, ev, n, activeAfter), used);
          used := used + n;
          return;
        }
        assert rest[n..] == bytes[used + n..];
        ShiftedTwice(PumpSpec(State(), activeAfter, rest[n..]), n, used);
        used := used + n;
      }
    }

    /**
     * One round of that loop: a record is read and offered to the VT
     * switcher; `again` says whether it was consumed, so that the loop
     * goes on with the rest of the bytes.
     */
    method PumpOnce(active: int, bytes: seq<Byte>)
      returns (rc: int, ev: Option<Event>, used: nat, activeAfter: int, again: bool)
      modifies this, tty, context
      ensures used <= |bytes| && (again ==> used > 0)
      ensures !again ==> PumpSpec(old(State()), active, bytes) == (State(), rc, ev, used, activeAfter)
      ensures again ==> PumpSpec(old(State()), active, bytes) ==
                        Shifted(PumpSpec(State(), activeAfter, bytes[used..]), used)
    {
      ghost var pre := State();
      rc, ev, used := tty.ReadEvent(bytes);
      activeAfter := active;
      if ev.None? {
        return rc, ev, used, activeAfter, false;
      }
      var consumed;
      consumed, activeAfter := HandleEvent(ev.value, active);
      again := consumed;
    }

    method PollEvent(active: int, refused: bool, bytes: seq<Byte>) returns (rc: int, ev: Option<Event>, used: nat)
      modifies this, tty, context
      ensures (State(), rc, ev, used) == ReadEventSpec(old(State()), ownVt, active, refused, bytes)
    {
      rc, ev, used := ReadEvent(active, refused, bytes);
    }

    /**
     * `zdl_window_wait_event`: the same read with blocking tty reads, so
     * `bytes` is everything the reads deliver; the result code is dropped.
     */
    method WaitEvent(active: int, refused: bool, bytes: seq<Byte>) returns (ev: Option<Event>, used: nat)
      modifies this, tty, context
      ensures var r := ReadEventSpec(old(State()), ownVt, active, refused, bytes);
              State() == r.0 && ev == r.2 && used == r.3
    {
      var rc;
      rc, ev, used := ReadEvent(active, refused, bytes);
    }

    /** `zdl_window_swap`: `egl_swap` on the window's surface, with the corrected flip completion (see `FlipDoneAsWritten`). */
    method Swap(flipDone: bool)
      modifies context
      ensures context.State() == SwapSpec(old(context.State()), flipDone)
    {
      context.Swap(flipDone);
    }

    /** FLIP_Y is always added: the surface is drawn upside down. */
    method SetFlags(newFlags: Mask)
      modifies this
      ensures flags == newFlags | FLAG_FLIP_Y
      ensures width == old(width) && height == old(height) && vtSwitches == old(vtSwitches)
    {
      flags := newFlags | FLAG_FLIP_Y;
    }

    method GetFlags() returns (r: Mask)
      ensures r == flags
    {
      r := flags;
    }

    method GetSize() returns (w: int, h: int)
      ensures w == width && h == height
    {
      w, h := width, height;
    }

    /** The window always sits at the origin. */
    method GetPosition() returns (x: int, y: int)
      ensures x == 0 && y == 0
    {
      x, y := 0, 0;
    }
  }

  /** Whatever flags are set, a window keeps FLIP_Y. */
  lemma FlipYAlwaysSet(flags: Mask)
    ensures (flags | FLAG_FLIP_Y) & FLAG_FLIP_Y == FLAG_FLIP_Y
    ensures (flags | FLAG_FLIP_Y) & !FLAG_FLIP_Y == flags & !FLAG_FLIP_Y
  {
  }

  /**
   * `zdl_window_create`: fails when the record cannot be allocated
   * (`allocOk` false), the tty cannot be set up or the surface cannot be
   * created (`ctx` None).
   */
  method CreateWindow(flags: Mask, allocOk: bool, ttyOk: bool, ctx: Option<DrmContext>, active: int)
    returns (w: DrmWindow?)
    ensures w == null <==> !allocOk || !ttyOk || ctx.None?
    ensures w != null ==> (fresh(w) && w.ownVt == active && w.flags == flags | FLAG_FLIP_Y &&
                           w.width == ctx.value.mode.hdisplay && w.height == ctx.value.mode.vdisplay &&
                           w.State() == DrmState(KEYMOD_NONE, CreatedEgl(ctx.value.canMaster), []))
  {
    if !allocOk || !ttyOk || ctx.None? {
      return null;
    }
    w := new DrmWindow(flags, ctx.value, active);
  }
}
