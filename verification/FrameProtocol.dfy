/**
 The frame exchange of one output between the shell, the screensaver loader
 and the compositor: its state, its steps, and its runs.
 */
module FrameProtocol {
  import opened Bytes
  import opened LockSurface

  const MAX_SIZE: int := 16384

  // ---------- the loader's side ----------

  /** `gen` is history: the CONFIGURE the buffers were made for. */
  datatype Output = Output(size: Size, busy: seq<bool>, frameWanted: bool, gen: nat)

  /** What the graphics driver makes of three buffers. */
  datatype Driver = Driver(layouts: seq<Layout>, bytes: seq<int>)

  predicate Valid(size: Size) {
    0 < size.width <= MAX_SIZE && 0 < size.height <= MAX_SIZE
  }

  const ALL_FREE: seq<bool> := [false, false, false]

  function BufferFor(size: Size, gen: nat, i: nat, driver: Driver): Up {
    var layout := if i < |driver.layouts| then driver.layouts[i] else Layout(0, 0, 0);
    var bytes := if i < |driver.bytes| then driver.bytes[i] else 0;
    Buffer(i, size, layout, Some(Fd(bytes, Dmabuf(gen, i))))
  }

  function Buffers(size: Size, gen: nat, driver: Driver, n: nat): seq<Up> {
    if n == 0 then [] else Buffers(size, gen, driver, n - 1) + [BufferFor(size, gen, n - 1, driver)]
  }

  datatype Told = Told(output: Option<Output>, messages: seq<Up>)

  function OutputConfigure(o: Option<Output>, size: Size, gen: nat, driver: Driver): Told {
    if !Valid(size) || (o.Some? && o.value.size == size) then Told(o, [])
    else Told(Some(Output(size, ALL_FREE, true, gen)), Buffers(size, gen, driver, SLOTS))
  }

  /** What a message from the shell does to the output it names. */
  function Hear(o: Option<Output>, m: Down, driver: Driver): Told {
    match m
    case Configure(size, gen) => OutputConfigure(o, size, gen, driver)
    case Remove => Told(None, [])
    case Frame => Told(if o.Some? then Some(o.value.(frameWanted := true)) else None, [])
    case Release(i) =>
      Told(if o.Some? && i < |o.value.busy| then Some(o.value.(busy := o.value.busy[i := false])) else o, [])
  }

  /** The first buffer that is not busy, |busy| if all are. */
  function FirstFree(busy: seq<bool>): (i: nat)
    ensures i <= |busy| && (i < |busy| ==> !busy[i])
    ensures forall k :: 0 <= k < i ==> busy[k]
  {
    if busy == [] || !busy[0] then 0 else 1 + FirstFree(busy[1..])
  }

  /** The output draws into its first free buffer, if a frame is wanted and there is one. */
  function OutputDraw(o: Output): Told {
    var i := FirstFree(o.busy);
    if !o.frameWanted || i == |o.busy| then Told(Some(o), [])
    else Told(Some(o.(busy := o.busy[i := true], frameWanted := false)), [Ready(i, o.gen, None)])
  }

  // ---------- the three parties together ----------

  /**
   `sizes` is the history of the surface's configured sizes, `held` the buffers
   the compositor has been shown and has not released, `lossy` whether a message
   to the loader was ever dropped.
   */
  datatype System = System(
    surface: Option<Surface>, running: bool, down: seq<Down>, up: seq<Up>,
    output: Option<Output>, held: set<Dmabuf>, sizes: seq<Size>, lossy: bool)

  datatype Event =
    | Configured(size: Size, hasMemory: bool, sent: Sent)
    | Removed(sent: Sent)
    | ShellReceives
    | Imported(slot: nat)
    | FrameShown(sent: Sent)
    | Released(slot: nat, sent: Sent)
    | LoaderGone
    | LoaderReceives(driver: Driver)
    | LoaderDraws

  function Affect(s: System, e: Effect): System {
    s.(surface := Some(e.surface), held := Watch(s.held, e.requests))
  }

  /** stop_screensaver, for this output. */
  function Stop(s: System): System
    requires s.surface.Some? ==> Shaped(s.surface.value)
  {
    if !s.running then s
    else if s.surface.None? then s.(running := false)
    else Affect(s, Stopped(s.surface.value)).(running := false)
  }

  /** A full socket drops the message, any other error ends the screensaver. */
  function Send(s: System, m: Option<Down>, sent: Sent): System
    requires s.surface.Some? ==> Shaped(s.surface.value)
  {
    if m.None? || !s.running then s
    else
      match sent
      case Delivered => s.(down := s.down + [m.value])
      case Dropped => s.(lossy := true)
      case Broken => Stop(s)
  }

  predicate Sound(s: System) {
    && (s.surface.Some? ==> Shaped(s.surface.value))
    && (s.output.Some? ==> |s.output.value.busy| == SLOTS)
  }

  function Shell(s: System, e: Effect, sent: Sent): System
    requires Shaped(e.surface)
  {
    Send(Affect(s, e), e.message, sent)
  }

  function Initial(running: bool): System {
    System(Some(NEW_SURFACE), running, [], [], None, {}, [], false)
  }

  predicate HoldsSlot(s: System, i: nat)
    requires Sound(s)
  {
    && s.surface.Some? && i < SLOTS && s.surface.value.slots[i].Some?
    && s.surface.value.slots[i].value.imported && s.surface.value.slots[i].value.dmabuf in s.held
  }

  /** One step of one of the three; a step that cannot happen changes nothing. */
  function Step(s: System, modifiers: seq<nat>, e: Event): System
    requires Sound(s)
  {
    match e
    case Configured(size, hasMemory, sent) =>
      if s.surface.None? then s
      else
        var effect := SurfaceConfigure(s.surface.value, size, hasMemory);
        Shell(s, effect, sent).(sizes := if effect.message.Some? then s.sizes + [size] else s.sizes)
    case Removed(sent) =>
      if s.surface.None? then s
      else
        var s' := Send(s, Some(Remove), sent);
        Affect(s', DestroyBuffers(s'.surface.value)).(surface := None)
    case ShellReceives =>
      if s.up == [] || !s.running then s
      else
        var s' := s.(up := s.up[1..]);
        if s.surface.None? then s'
        else
          var effect := Handle(s.surface.value, modifiers, s.up[0]);
          if effect.None? then Stop(s') else Affect(s', effect.value)
    case Imported(i) =>
      if s.surface.None? || !Importing(s.surface.value, i) then s
      else Affect(s, ParamsCreated(s.surface.value, i))
    case FrameShown(sent) =>
      if s.surface.None? || !s.surface.value.frameCallback then s
      else Shell(s, FrameDone(s.surface.value), sent)
    case Released(i, sent) =>
      if !HoldsSlot(s, i) then s
      else Shell(s, BufferRelease(s.surface.value, i), sent)
    case LoaderGone => Stop(s)
    case LoaderReceives(driver) =>
      if s.down == [] then s
      else
        var told := Hear(s.output, s.down[0], driver);
        s.(down := s.down[1..], output := told.output, up := s.up + told.messages)
    case LoaderDraws =>
      if s.output.None? then s
      else
        var told := OutputDraw(s.output.value);
        s.(output := told.output, up := s.up + told.messages)
  }

  lemma StopSound(s: System)
    requires Sound(s)
    ensures Sound(Stop(s)) && (s.surface.Some? ==> Stop(s).surface.Some?)
  {
    hide Watch, DropSlots;
  }

  lemma SendSound(s: System, m: Option<Down>, sent: Sent)
    requires Sound(s)
    ensures Sound(Send(s, m, sent)) && (s.surface.Some? ==> Send(s, m, sent).surface.Some?)
  {
    hide Stop;
    StopSound(s);
  }

  lemma HearSound(o: Option<Output>, m: Down, driver: Driver)
    requires o.Some? ==> |o.value.busy| == SLOTS
    ensures var told := Hear(o, m, driver); told.output.Some? ==> |told.output.value.busy| == SLOTS
  {
    hide Buffers;
  }

  lemma StepSound(s: System, modifiers: seq<nat>, e: Event)
    requires Sound(s)
    ensures Sound(Step(s, modifiers, e))
  {
    hide Watch, FirstFree, Importable, DropSlots, Stop, Send, Hear;
    StopSound(s);
    match e
    case Configured(size, hasMemory, sent) =>
      if s.surface.Some? {
        var effect := SurfaceConfigure(s.surface.value, size, hasMemory);
        SendSound(Affect(s, effect), effect.message, sent);
      }
    case Removed(sent) => SendSound(s, Some(Remove), sent);
    case FrameShown(sent) =>
      if s.surface.Some? {
        var effect := FrameDone(s.surface.value);
        SendSound(Affect(s, effect), effect.message, sent);
      }
    case Released(i, sent) =>
      if HoldsSlot(s, i) {
        var effect := BufferRelease(s.surface.value, i);
        SendSound(Affect(s, effect), effect.message, sent);
      }
    case ShellReceives =>
      if s.up != [] {
        StopSound(s.(up := s.up[1..]));
      }
    case LoaderReceives(driver) =>
      if s.down != [] {
        HearSound(s.output, s.down[0], driver);
      }
    case _ =>
  }

  function After(s: System, modifiers: seq<nat>, events: seq<Event>): (r: System)
    requires Sound(s)
    ensures Sound(r)
  {
    if events == [] then s
    else
      var before := After(s, modifiers, events[..|events| - 1]);
      StepSound(before, modifiers, events[|events| - 1]);
      Step(before, modifiers, events[|events| - 1])
  }

  function Run(running: bool, modifiers: seq<nat>, events: seq<Event>): (s: System)
    ensures Sound(s)
  {
    After(Initial(running), modifiers, events)
  }

  /** The buffer the loader would draw into next, if it is to draw at all. */
  predicate DrawsInto(s: System, d: Dmabuf)
    requires Sound(s)
  {
    && s.output.Some? && s.output.value.frameWanted
    && d.gen == s.output.value.gen && d.slot == FirstFree(s.output.value.busy) < SLOTS
  }

  /** The loader is about to draw into a buffer that the compositor is showing. */
  predicate Tearing(s: System)
    requires Sound(s)
  {
    exists d :: DrawsInto(s, d) && d in s.held
  }
}
