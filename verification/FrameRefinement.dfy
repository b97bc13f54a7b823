/**
 The shell with all its lock surfaces does for each of them what the frame
 exchange of one output has the shell do: every event of the session is a few
 steps of the exchange, or none.
 */
module FrameRefinement {
  import opened Bytes
  import opened LockSurface
  import opened LockSession
  import opened LockInvariant
  import Frames = FrameProtocol

  function Lookup(xs: seq<LockSurf>, id: nat): Option<LockSurf> {
    var k := IndexOf(xs, id);
    if k < |xs| then Some(xs[k]) else None
  }

  /** What is on its way to the loader for one surface. */
  function About(id: nat, sent: seq<Letter>): seq<Down> {
    if sent == [] then []
    else About(id, sent[..|sent| - 1]) + if sent[|sent| - 1].id == id then [sent[|sent| - 1].body] else []
  }

  /** The surface's own record, and the history of its sizes. */
  predicate Keeps(x: LockSurf, t: Frames.System) {
    && t.surface == Some(x.surface)
    && t.held == Watch({}, x.requests)
    && t.sizes == SizesAfter([], x.requests)
    && x.surface.configured == (t.sizes != [])
    && (t.sizes != [] ==> t.sizes[|t.sizes| - 1] == x.surface.size)
  }

  /** The exchange's idea of the shell and of the compositor is what they are. */
  predicate Agrees(s: Session, t: Frames.System, id: nat) {
    && Frames.Sound(t)
    && Lookup(s.surfaces, id).Some? && Keeps(Lookup(s.surfaces, id).value, t)
    && t.running == s.running
    && t.down == About(id, s.sent)
  }

  lemma AboutMore(id: nat, sent: seq<Letter>, x: Letter)
    ensures About(id, sent + [x]) == About(id, sent) + if x.id == id then [x.body] else []
  {
    assert (sent + [x])[..|sent|] == sent;
  }

  lemma SurfaceAt(xs: seq<LockSurf>, k: nat, nextId: nat)
    requires Apart(xs, nextId) && k < |xs|
    ensures IndexOf(xs, xs[k].id) == k
  {
    assert xs[k].id == xs[k].id;
  }

  // ---------- what is done to a surface without a new size ----------

  lemma GentleKeeps(x: LockSurf, e: Effect, t: Frames.System)
    requires Keeps(x, t) && Gentle(x.surface, e)
    ensures Keeps(Act(x, e), Frames.Affect(t, e))
  {
    WatchJoin({}, x.requests, e.requests);
    SizesJoin([], x.requests, e.requests);
    SizesNoAcks(t.sizes, e.requests);
    hide Watch, SizesAfter, NoAcks;
  }

  // ---------- the screensaver ends ----------

  lemma {:induction false} IndexSame(xs: seq<LockSurf>, ys: seq<LockSurf>, id: nat)
    requires |xs| == |ys| && forall k :: 0 <= k < |xs| ==> xs[k].id == ys[k].id
    ensures IndexOf(xs, id) == IndexOf(ys, id)
  {
    if xs != [] && xs[0].id != id {
      IndexSame(xs[1..], ys[1..], id);
    }
  }

  lemma FailedLookup(s: Session, id: nat)
    requires s.running && Lookup(s.surfaces, id).Some?
    ensures var x := Lookup(s.surfaces, id).value;
            Lookup(ScreensaverFailed(s).surfaces, id) == Some(Act(x, Stopped(x.surface)))
  {
    IndexSame(s.surfaces, BlackAll(s.surfaces), id);
    hide Stopped;
  }

  lemma StopIs(t: Frames.System)
    requires Frames.Sound(t) && t.surface.Some?
    ensures !t.running ==> Frames.Stop(t) == t
    ensures t.running ==> Shaped(Stopped(t.surface.value).surface)
                          && Frames.Stop(t) == Frames.Affect(t, Stopped(t.surface.value)).(running := false)
    ensures Frames.Sound(Frames.Stop(t))
  {
    hide Watch, DropSlots, ShowBlack;
  }

  lemma FailedAgrees(s: Session, t: Frames.System, id: nat)
    requires Agrees(s, t, id)
    ensures Agrees(ScreensaverFailed(s), Frames.Stop(t), id)
  {
    StopIs(t);
    if s.running {
      FailedLookup(s, id);
      var x := Lookup(s.surfaces, id).value;
      StoppedGentle(x.surface);
      GentleKeeps(x, Stopped(x.surface), t);
    }
    hide Frames.Stop, Stopped, Lookup, About, BlackAll, Watch, SizesAfter;
  }

  // ---------- one surface's event, and what is sent for it ----------

  lemma {:induction false} IndexUpdate(xs: seq<LockSurf>, k: nat, x: LockSurf, id: nat)
    requires k < |xs| && x.id == xs[k].id
    ensures IndexOf(xs[k := x], id) == IndexOf(xs, id)
  {
    IndexSame(xs, xs[k := x], id);
  }

  /** The surface k is the one with the id. */
  lemma ActHere(s: Session, k: nat, e: Effect, t: Frames.System, id: nat)
    requires Apart(s.surfaces, s.nextId) && k < |s.surfaces| && Shaped(e.surface) && Agrees(s, t, id)
    requires s.surfaces[k].id == id
    ensures Lookup(s.surfaces, id) == Some(s.surfaces[k]) && t.surface == Some(s.surfaces[k].surface)
    ensures Lookup(ActOn(s, k, e).surfaces, id) == Some(Act(s.surfaces[k], e))
  {
    SurfaceAt(s.surfaces, k, s.nextId);
    IndexUpdate(s.surfaces, k, Act(s.surfaces[k], e), id);
    hide IndexOf, Frames.Sound;
  }

  lemma ActAgrees(s: Session, k: nat, e: Effect, t: Frames.System, id: nat)
    requires Apart(s.surfaces, s.nextId) && k < |s.surfaces| && Agrees(s, t, id)
    requires Gentle(s.surfaces[k].surface, e) && s.surfaces[k].id == id
    ensures Agrees(ActOn(s, k, e), Frames.Affect(t, e), id)
  {
    ActHere(s, k, e, t, id);
    GentleKeeps(s.surfaces[k], e, t);
    hide Keeps, Lookup, About, Watch, Apart;
  }

  lemma ActOther(s: Session, k: nat, e: Effect, t: Frames.System, id: nat)
    requires k < |s.surfaces| && Shaped(e.surface) && Agrees(s, t, id) && s.surfaces[k].id != id
    ensures Agrees(ActOn(s, k, e), t, id)
  {
    IndexUpdate(s.surfaces, k, Act(s.surfaces[k], e), id);
    hide IndexOf, Keeps, About, Frames.Sound;
  }

  lemma LettersAgree(s: Session, t: Frames.System, id: nat, sent: seq<Letter>)
    requires Agrees(s, t, id)
    ensures Agrees(s.(sent := sent), t.(down := About(id, sent)), id)
    ensures Agrees(s, t.(lossy := true), id) && t.down == About(id, s.sent)
  {
    hide Lookup, About, Watch, SizesAfter;
  }

  lemma SendAgrees(s: Session, m: Down, sent: Sent, t: Frames.System, id: nat)
    requires Agrees(s, t, id)
    ensures Agrees(ScrSend(s, id, m, sent), Frames.Send(t, Some(m), sent), id)
  {
    AgreesSound(s, t, id);
    hide Agrees, Frames.Stop, Frames.Sound, ScreensaverFailed, About;
    AboutMore(id, s.sent, Letter(id, m));
    LettersAgree(s, t, id, s.sent + [Letter(id, m)]);
    FailedAgrees(s, t, id);
  }

  lemma SendOtherAgrees(s: Session, other: nat, m: Down, sent: Sent, t: Frames.System, id: nat)
    requires Agrees(s, t, id) && other != id
    ensures Agrees(ScrSend(s, other, m, sent), if sent.Broken? && s.running then Frames.Stop(t) else t, id)
  {
    AgreesSound(s, t, id);
    hide Agrees, Frames.Stop, Frames.Sound, ScreensaverFailed, About;
    AboutMore(id, s.sent, Letter(other, m));
    assert About(id, s.sent) + [] == About(id, s.sent);
    LettersAgree(s, t, id, s.sent + [Letter(other, m)]);
    FailedAgrees(s, t, id);
  }

  /** For the other surfaces, an event is a broken socket or nothing at all. */
  function Elsewhere(s: Session, message: Option<Down>, sent: Sent): seq<Frames.Event> {
    if message.Some? && sent.Broken? && s.running then [Frames.LoaderGone] else []
  }

  lemma Goes(t: Frames.System, modifiers: seq<nat>)
    requires Frames.Sound(t)
    ensures Frames.After(t, modifiers, []) == t && Frames.After(t, modifiers, [Frames.LoaderGone]) == Frames.Stop(t)
  {
    assert [Frames.LoaderGone][..0] == [];
    hide Frames.Stop;
  }

  lemma AgreesSound(s: Session, t: Frames.System, id: nat)
    requires Agrees(s, t, id)
    ensures Frames.Sound(t) && t.surface.Some? && t.running == s.running
  {
  }

  lemma ShellElsewhere(s: Session, k: nat, e: Effect, sent: Sent, modifiers: seq<nat>, t: Frames.System, id: nat)
    requires k < |s.surfaces| && Shaped(e.surface) && Agrees(s, t, id) && s.surfaces[k].id != id
    ensures Agrees(Shell(s, k, e, sent), Frames.After(t, modifiers, Elsewhere(s, e.message, sent)), id)
  {
    hide Agrees, Frames.After, Frames.Stop, ScrSend, Frames.Sound;
    AgreesSound(s, t, id);
    ActOther(s, k, e, t, id);
    Goes(t, modifiers);
    var s1 := ActOn(s, k, e);
    assert s1.running == s.running;
    hide ActOn;
    if e.message.Some? {
      SendOtherAgrees(s1, s.surfaces[k].id, e.message.value, sent, t, id);
    }
  }

  lemma ShellHere(s: Session, k: nat, e: Effect, sent: Sent, t: Frames.System, id: nat)
    requires Apart(s.surfaces, s.nextId) && k < |s.surfaces| && Agrees(s, t, id)
    requires Gentle(s.surfaces[k].surface, e) && s.surfaces[k].id == id
    ensures Agrees(Shell(s, k, e, sent), Frames.Shell(t, e, sent), id)
  {
    ActAgrees(s, k, e, t, id);
    var s1, t1 := ActOn(s, k, e), Frames.Affect(t, e);
    assert Frames.Sound(t1);
    hide Agrees, Frames.Affect, Frames.Send, ScrSend, ActOn;
    if e.message.Some? {
      SendAgrees(s1, e.message.value, sent, t1, id);
    } else {
      SendNothing(t1, sent);
    }
  }

  lemma SendNothing(t: Frames.System, sent: Sent)
    requires Frames.Sound(t)
    ensures Frames.Send(t, None, sent) == t
  {
  }

  // ---------- a size ----------

  lemma OneStep(t: Frames.System, modifiers: seq<nat>, e: Frames.Event)
    requires Frames.Sound(t)
    ensures Frames.After(t, modifiers, [e]) == Frames.Step(t, modifiers, e)
            && Frames.Sound(Frames.Step(t, modifiers, e))
  {
    assert [e][..0] == [];
    assert Frames.After(t, modifiers, [e][..0]) == t;
    Frames.StepSound(t, modifiers, e);
    hide Frames.Step;
  }

  lemma AfterGone(t: Frames.System, modifiers: seq<nat>, es: seq<Frames.Event>)
    requires Frames.Sound(t)
    ensures Frames.After(t, modifiers, es + [Frames.LoaderGone]) == Frames.Stop(Frames.After(t, modifiers, es))
  {
    assert (es + [Frames.LoaderGone])[..|es|] == es;
    hide Frames.Stop;
  }

  /** The exchange with its surface at a size, new or not, and its history of sizes. */
  function Sized(t: Frames.System, e: Effect, size: Size): Frames.System {
    Frames.Affect(t, e).(sizes := if e.message.Some? then t.sizes + [size] else t.sizes)
  }

  lemma SizedAgrees(s: Session, k: nat, size: Size, hasMemory: bool, t: Frames.System, id: nat)
    requires Apart(s.surfaces, s.nextId) && k < |s.surfaces| && Agrees(s, t, id) && s.surfaces[k].id == id
    ensures var e := SurfaceConfigure(s.surfaces[k].surface, size, hasMemory);
            Shaped(e.surface) && Agrees(ActOn(s, k, e), Sized(t, e, size), id)
  {
    var x, e := s.surfaces[k], SurfaceConfigure(s.surfaces[k].surface, size, hasMemory);
    assert Shaped(e.surface);
    ActHere(s, k, e, t, id);
    SizedKeeps(x, size, hasMemory, t);
    hide SurfaceConfigure, Watch, SizesAfter, Lookup, About, Apart, Keeps;
  }

  lemma SizedKeeps(x: LockSurf, size: Size, hasMemory: bool, t: Frames.System)
    requires Keeps(x, t)
    ensures var e := SurfaceConfigure(x.surface, size, hasMemory);
            Shaped(e.surface) && Keeps(Act(x, e), Sized(t, e, size))
  {
    var e := SurfaceConfigure(x.surface, size, hasMemory);
    ConfigureSizes(x.surface, t.sizes, size, hasMemory);
    hide SurfaceConfigure;
    SizedBy(x, e, size, t);
  }

  /** What happened to the surface's sizes is what happens to the exchange's. */
  lemma SizedBy(x: LockSurf, e: Effect, size: Size, t: Frames.System)
    requires Keeps(x, t) && Shaped(e.surface) && e.surface.configured && e.surface.size == size
    requires SizesAfter(t.sizes, e.requests) == if e.message.Some? then t.sizes + [size] else t.sizes
    requires e.message.None? ==> e.surface == x.surface
    ensures Keeps(Act(x, e), Sized(t, e, size))
  {
    WatchJoin({}, x.requests, e.requests);
    SizesJoin([], x.requests, e.requests);
    hide Watch, SizesAfter;
  }

  lemma SendSizes(t: Frames.System, m: Option<Down>, sent: Sent, sizes: seq<Size>)
    requires Frames.Sound(t)
    ensures Frames.Send(t.(sizes := sizes), m, sent) == Frames.Send(t, m, sent).(sizes := sizes)
  {
    hide Watch, DropSlots, ShowBlack;
  }

  lemma ConfiguredStep(modifiers: seq<nat>, t: Frames.System, size: Size, hasMemory: bool, sent: Sent)
    requires Frames.Sound(t) && t.surface.Some?
    ensures var e := SurfaceConfigure(t.surface.value, size, hasMemory);
            Shaped(e.surface)
            && Frames.Step(t, modifiers, Frames.Configured(size, hasMemory, sent))
                == Frames.Send(Sized(t, e, size), e.message, sent)
  {
    var e := SurfaceConfigure(t.surface.value, size, hasMemory);
    assert Shaped(e.surface);
    hide SurfaceConfigure, Watch;
    SendSizes(Frames.Affect(t, e), e.message, sent, Sized(t, e, size).sizes);
    hide Frames.Send;
  }

  /** What a surface's own event is to its exchange. */
  function Own(e: Event): Frames.Event
    requires OfSurface(e) && !e.ImportFailed?
  {
    match e
    case SizeGiven(_, size, hasMemory, sent, _) => Frames.Configured(size, hasMemory, sent)
    case LoaderSays(_, _, _) => Frames.ShellReceives
    case ImportDone(_, slot) => Frames.Imported(slot)
    case FrameDue(_, sent) => Frames.FrameShown(sent)
    case BufferFreed(_, slot, sent) => Frames.Released(slot, sent)
  }

  /** That step, and the loader's end if another message finds the socket broken. */
  predicate OwnSteps(e: Event, steps: seq<Frames.Event>)
    requires OfSurface(e) && !e.ImportFailed?
  {
    steps == [Own(e)] || (e.SizeGiven? && e.blurSent.Broken? && steps == [Own(e)] + [Frames.LoaderGone])
  }

  /** What others' events can be to it. */
  predicate OnlyEnds(steps: seq<Frames.Event>) {
    |steps| <= 2 && forall e :: e in steps ==> e.LoaderGone?
  }

  predicate OfSurface(e: Event) {
    e.SizeGiven? || e.LoaderSays? || e.ImportDone? || e.ImportFailed? || e.FrameDue? || e.BufferFreed?
  }

  lemma SizeGivenHere(modifiers: seq<nat>, s: Session, k: nat, e: Event, t: Frames.System, id: nat)
      returns (steps: seq<Frames.Event>)
    requires Apart(s.surfaces, s.nextId) && k < |s.surfaces| && Agrees(s, t, id) && s.surfaces[k].id == id
             && e.SizeGiven?
    ensures OwnSteps(e, steps)
    ensures Agrees(ConfigureSurface(s, k, e.size, e.hasMemory, e.sent, e.blurSent), Frames.After(t, modifiers, steps),
                   id)
  {
    var effect := SurfaceConfigure(s.surfaces[k].surface, e.size, e.hasMemory);
    var c := Frames.Configured(e.size, e.hasMemory, e.sent);
    SizedAgrees(s, k, e.size, e.hasMemory, t, id);
    ActHere(s, k, effect, t, id);
    AgreesSound(s, t, id);
    AgreesSound(ActOn(s, k, effect), Sized(t, effect, e.size), id);
    ConfiguredStep(modifiers, t, e.size, e.hasMemory, e.sent);
    hide SurfaceConfigure, Agrees, Frames.Send, Frames.After, Frames.Stop, Frames.Step, ScreensaverFailed, ActOn,
      Sized, Frames.Sound, ScrSend;
    var t1 := Frames.Step(t, modifiers, c);
    OneStep(t, modifiers, c);
    if effect.message.Some? {
      SendAgrees(ActOn(s, k, effect), effect.message.value, e.sent, Sized(t, effect, e.size), id);
    } else {
      SendNothing(Sized(t, effect, e.size), e.sent);
    }
    var s1 := Shell(s, k, effect, e.sent);
    assert Agrees(s1, t1, id);
    if effect.message.Some? && e.blurSent.Broken? {
      steps := [c] + [Frames.LoaderGone];
      AfterGone(t, modifiers, [c]);
      FailedAgrees(s1, t1, id);
    } else {
      steps := [c];
    }
  }

  lemma SizeGivenElsewhere(modifiers: seq<nat>, s: Session, k: nat, e: Event, t: Frames.System, id: nat)
      returns (steps: seq<Frames.Event>)
    requires k < |s.surfaces| && Agrees(s, t, id) && s.surfaces[k].id != id && e.SizeGiven?
    ensures OnlyEnds(steps)
    ensures Agrees(ConfigureSurface(s, k, e.size, e.hasMemory, e.sent, e.blurSent), Frames.After(t, modifiers, steps),
                   id)
  {
    hide *;
    var effect := SurfaceConfigure(s.surfaces[k].surface, e.size, e.hasMemory);
    ConfigureSurfaceIs(s, k, e);
    AgreesSound(s, t, id);
    ShellElsewhere(s, k, effect, e.sent, modifiers, t, id);
    ElsewhereFew(s, effect.message, e.sent);
    steps := Elsewhere(s, effect.message, e.sent);
    if effect.message.Some? && e.blurSent.Broken? {
      AfterGone(t, modifiers, steps);
      FailedAgrees(Shell(s, k, effect, e.sent), Frames.After(t, modifiers, steps), id);
      EndsMore(steps);
      steps := steps + [Frames.LoaderGone];
    }
  }

  lemma EndsMore(steps: seq<Frames.Event>)
    requires OnlyEnds(steps) && |steps| <= 1
    ensures OnlyEnds(steps + [Frames.LoaderGone])
  {
  }

  lemma ConfigureSurfaceIs(s: Session, k: nat, e: Event)
    requires k < |s.surfaces| && e.SizeGiven?
    ensures var effect := SurfaceConfigure(s.surfaces[k].surface, e.size, e.hasMemory);
            Shaped(effect.surface) && ConfigureSurface(s, k, e.size, e.hasMemory, e.sent, e.blurSent) ==
            if effect.message.Some? && e.blurSent.Broken? then ScreensaverFailed(Shell(s, k, effect, e.sent))
            else Shell(s, k, effect, e.sent)
  {
    ConfigureShaped(s.surfaces[k].surface, e.size, e.hasMemory);
    hide SurfaceConfigure, Shell, ScreensaverFailed;
  }

  lemma ConfigureShaped(f: Surface, size: Size, hasMemory: bool)
    requires Shaped(f)
    ensures Shaped(SurfaceConfigure(f, size, hasMemory).surface)
  {
  }

  /** Steps of the shell and the compositor that take no message off the loader's channel. */
  predicate ShellOnly(steps: seq<Frames.Event>) {
    forall e :: e in steps ==> !e.ShellReceives? && !e.LoaderReceives? && !e.LoaderDraws?
  }

  lemma ShellOnlyStep(t: Frames.System, modifiers: seq<nat>, e: Frames.Event)
    requires Frames.Sound(t) && !e.ShellReceives? && !e.LoaderReceives? && !e.LoaderDraws?
    ensures Frames.Step(t, modifiers, e).up == t.up && Frames.Step(t, modifiers, e).output == t.output
  {
    hide Watch, SurfaceConfigure, Stopped, DestroyBuffers, ParamsCreated;
  }

  lemma {:induction false} ShellOnlyAfter(t: Frames.System, modifiers: seq<nat>, steps: seq<Frames.Event>)
    requires Frames.Sound(t) && ShellOnly(steps)
    ensures Frames.After(t, modifiers, steps).up == t.up && Frames.After(t, modifiers, steps).output == t.output
    decreases |steps|
  {
    if steps != [] {
      ShellOnlyAfter(t, modifiers, steps[..|steps| - 1]);
      assert steps[|steps| - 1] in steps;
      hide Frames.Step;
      ShellOnlyStep(Frames.After(t, modifiers, steps[..|steps| - 1]), modifiers, steps[|steps| - 1]);
    }
  }

  // ---------- a message from the loader ----------

  lemma ReceiveStep(modifiers: seq<nat>, t: Frames.System)
    requires Frames.Sound(t) && t.surface.Some? && t.running && t.up != []
    ensures var handled := Handle(t.surface.value, modifiers, t.up[0]);
            var t1 := t.(up := t.up[1..]);
            && (handled.Some? ==> Shaped(handled.value.surface))
            && Frames.Step(t, modifiers, Frames.ShellReceives) ==
               if handled.Some? then Frames.Affect(t1, handled.value) else Frames.Stop(t1)
  {
    hide Frames.Affect;
  }

  lemma HandleChecks(f: Surface, modifiers: seq<nat>, m: Up)
    requires Shaped(f)
    ensures (!m.Buffer? && m.fd.Some?) || m.buffer >= SLOTS ==> Handle(f, modifiers, m) == None
  {
  }

  /** What a whole message is to the session. */
  lemma ReceiveIs(s: Session, modifiers: seq<nat>, k: nat, m: Up)
    requires s.running && k < |s.surfaces| && k == IndexOf(s.surfaces, s.surfaces[k].id)
    ensures var handled := Handle(s.surfaces[k].surface, modifiers, m);
            (handled.Some? ==> Shaped(handled.value.surface))
            && Receive(s, modifiers, s.surfaces[k].id, m, true) ==
               if handled.Some? then ActOn(s, k, handled.value) else ScreensaverFailed(s)
  {
    HandleChecks(s.surfaces[k].surface, modifiers, m);
    var handled := Handle(s.surfaces[k].surface, modifiers, m);
    assert handled.Some? ==> Shaped(handled.value.surface);
    hide Handle, ActOn, ScreensaverFailed, IndexOf;
  }

  lemma ReceiveHere(modifiers: seq<nat>, s: Session, k: nat, m: Up, t: Frames.System, id: nat)
    requires Apart(s.surfaces, s.nextId) && k < |s.surfaces| && Agrees(s, t, id) && s.surfaces[k].id == id
    requires s.running && t.up != [] && t.up[0] == m
    ensures Agrees(Receive(s, modifiers, id, m, true), Frames.After(t, modifiers, [Frames.ShellReceives]), id)
  {
    var t1, f := t.(up := t.up[1..]), s.surfaces[k].surface;
    assert Agrees(s, t1, id);
    SurfaceAt(s.surfaces, k, s.nextId);
    ReceiveIs(s, modifiers, k, m);
    AgreesSound(s, t, id);
    assert t.surface == Some(f) by {
      ActHere(s, k, Effect(f, [], None), t, id);
    }
    hide Agrees, Handle, Frames.Stop, Frames.Affect, Frames.Step, Frames.After, Frames.Sound, ScreensaverFailed, ActOn,
      IndexOf, Apart, Receive;
    OneStep(t, modifiers, Frames.ShellReceives);
    ReceiveStep(modifiers, t);
    var handled := Handle(f, modifiers, m);
    if handled.Some? {
      HandleGentle(f, modifiers, m);
      ActAgrees(s, k, handled.value, t1, id);
    } else {
      FailedAgrees(s, t1, id);
    }
  }

  lemma ReceiveElsewhere(modifiers: seq<nat>, s: Session, other: nat, m: Up, whole: bool, t: Frames.System, id: nat)
    returns (steps: seq<Frames.Event>)
    requires Agrees(s, t, id) && other != id
    ensures OnlyEnds(steps)
    ensures Agrees(Receive(s, modifiers, other, m, whole), Frames.After(t, modifiers, steps), id)
  {
    AgreesSound(s, t, id);
    Goes(t, modifiers);
    FailedAgrees(s, t, id);
    HandledElsewhere(modifiers, s, other, m, t, id);
    hide Agrees, ScrHandle, Frames.Stop, Frames.After, Frames.Sound, ScreensaverFailed;
    steps := if s.running && (!whole || ScrHandle(s, modifiers, other, m).None?) then [Frames.LoaderGone] else [];
  }

  lemma HandledElsewhere(modifiers: seq<nat>, s: Session, other: nat, m: Up, t: Frames.System, id: nat)
    requires Agrees(s, t, id) && other != id
    ensures var handled := ScrHandle(s, modifiers, other, m); handled.Some? ==> Agrees(handled.value, t, id)
  {
    var k := IndexOf(s.surfaces, other);
    hide Agrees, Handle, ActOn;
    if k < |s.surfaces| {
      var e := Handle(s.surfaces[k].surface, modifiers, m);
      if e.Some? {
        HandleGentle(s.surfaces[k].surface, modifiers, m);
        GentleShaped(s.surfaces[k].surface, e.value);
        ActOther(s, k, e.value, t, id);
      }
    }
  }

  // ---------- an import done, a frame shown, a buffer let go ----------

  lemma BufferStep(modifiers: seq<nat>, s: Session, k: nat, e: Event)
    requires (e.ImportDone? || e.FrameDue? || e.BufferFreed?) && k == IndexOf(s.surfaces, e.id) < |s.surfaces|
    ensures var x := s.surfaces[k];
            && (e.ImportDone? ==>
                  Step(s, modifiers, e) == if Importing(x.surface, e.slot)
                      then ActOn(s, k, ParamsCreated(x.surface, e.slot)) else s)
            && (e.FrameDue? ==>
                  Step(s, modifiers, e) == if x.surface.frameCallback then Shell(s, k, FrameDone(x.surface), e.sent)
                      else s)
            && (e.BufferFreed? ==>
                  Step(s, modifiers, e) == if HasBuffer(x, e.slot)
                      then Shell(s, k, BufferRelease(x.surface, e.slot), e.sent) else s)
  {
    hide IndexOf, ActOn, Shell, Watch;
  }

  /** The same events, as the exchange has them. */
  lemma BufferFrameStep(modifiers: seq<nat>, t: Frames.System, x: LockSurf, e: Event)
    requires Frames.Sound(t) && t.surface == Some(x.surface) && t.held == Watch({}, x.requests)
    ensures e.ImportDone? ==>
              Frames.Step(t, modifiers, Frames.Imported(e.slot)) ==
              if Importing(x.surface, e.slot) then Frames.Affect(t, ParamsCreated(x.surface, e.slot)) else t
    ensures e.FrameDue? ==>
              Frames.Step(t, modifiers, Frames.FrameShown(e.sent)) ==
              if x.surface.frameCallback then Frames.Shell(t, FrameDone(x.surface), e.sent) else t
    ensures e.BufferFreed? ==>
              Frames.Step(t, modifiers, Frames.Released(e.slot, e.sent)) ==
              if HasBuffer(x, e.slot) then Frames.Shell(t, BufferRelease(x.surface, e.slot), e.sent) else t
  {
    hide Frames.Affect, Frames.Shell, ParamsCreated, Watch;
  }

  lemma SmallGentle(f: Surface, i: nat)
    requires Shaped(f)
    ensures Gentle(f, FrameDone(f)) && (i < SLOTS && f.slots[i].Some? ==> Gentle(f, BufferRelease(f, i)))
  {
  }

  lemma SurfaceHere(s: Session, k: nat, t: Frames.System, id: nat)
    requires Apart(s.surfaces, s.nextId) && k == IndexOf(s.surfaces, id) < |s.surfaces| && Agrees(s, t, id)
    ensures var x := s.surfaces[k];
            x.id == id && Shaped(x.surface) && t.surface == Some(x.surface) && t.held == Watch({}, x.requests)
  {
    hide Watch, IndexOf, Apart, About, SizesAfter;
    var x := s.surfaces[k];
    ActHere(s, k, Effect(x.surface, [], None), t, id);
  }

  lemma BufferEventHere(modifiers: seq<nat>, s: Session, k: nat, e: Event, t: Frames.System, id: nat)
      returns (steps: seq<Frames.Event>)
    requires e.ImportDone? || e.FrameDue? || e.BufferFreed?
    requires Apart(s.surfaces, s.nextId) && k == IndexOf(s.surfaces, e.id) < |s.surfaces| && Agrees(s, t, id)
             && e.id == id
    ensures OwnSteps(e, steps) && Agrees(Step(s, modifiers, e), Frames.After(t, modifiers, steps), id)
  {
    hide Agrees, Step, Frames.Step, Frames.After, Frames.Sound, ActOn, Shell, ParamsCreated, Frames.Affect,
      Frames.Shell, Apart, Watch, IndexOf;
    var x := s.surfaces[k];
    SurfaceHere(s, k, t, id);
    AgreesSound(s, t, id);
    BufferStep(modifiers, s, k, e);
    BufferFrameStep(modifiers, t, x, e);
    if e.ImportDone? {
      steps := [Frames.Imported(e.slot)];
      OneStep(t, modifiers, steps[0]);
      if Importing(x.surface, e.slot) {
        ParamsCreatedGentle(x.surface, e.slot);
        ActAgrees(s, k, ParamsCreated(x.surface, e.slot), t, id);
      }
    } else if e.FrameDue? {
      steps := [Frames.FrameShown(e.sent)];
      OneStep(t, modifiers, steps[0]);
      SmallGentle(x.surface, 0);
      ShellHere(s, k, FrameDone(x.surface), e.sent, t, id);
    } else {
      steps := [Frames.Released(e.slot, e.sent)];
      OneStep(t, modifiers, steps[0]);
      SmallGentle(x.surface, e.slot);
      if HasBuffer(x, e.slot) {
        ShellHere(s, k, BufferRelease(x.surface, e.slot), e.sent, t, id);
      }
    }
  }

  lemma BufferEventElsewhere(modifiers: seq<nat>, s: Session, k: nat, e: Event, t: Frames.System, id: nat)
      returns (steps: seq<Frames.Event>)
    requires e.ImportDone? || e.FrameDue? || e.BufferFreed?
    requires k == IndexOf(s.surfaces, e.id) < |s.surfaces| && Agrees(s, t, id) && e.id != id
    ensures OnlyEnds(steps) && Agrees(Step(s, modifiers, e), Frames.After(t, modifiers, steps), id)
  {
    var x := s.surfaces[k];
    assert x.id == e.id && Shaped(x.surface);
    AgreesSound(s, t, id);
    FewEnds();
    hide *;
    BufferStep(modifiers, s, k, e);
    Goes(t, modifiers);
    steps := [];
    if e.ImportDone? {
      if Importing(x.surface, e.slot) {
        ParamsCreatedGentle(x.surface, e.slot);
        GentleShaped(x.surface, ParamsCreated(x.surface, e.slot));
        ActOther(s, k, ParamsCreated(x.surface, e.slot), t, id);
      }
    } else if e.FrameDue? {
      if x.surface.frameCallback {
        SmallShaped(x, 0);
        ShellElsewhere(s, k, FrameDone(x.surface), e.sent, modifiers, t, id);
        steps := Elsewhere(s, Some(Frame), e.sent);
        ElsewhereFew(s, Some(Frame), e.sent);
      }
    } else if HasBuffer(x, e.slot) {
      SmallShaped(x, e.slot);
      ShellElsewhere(s, k, BufferRelease(x.surface, e.slot), e.sent, modifiers, t, id);
      steps := Elsewhere(s, Some(Release(e.slot)), e.sent);
      ElsewhereFew(s, Some(Release(e.slot)), e.sent);
    }
  }

  lemma GentleShaped(f: Surface, e: Effect)
    requires Gentle(f, e)
    ensures Shaped(e.surface)
  {
  }

  lemma SmallShaped(x: LockSurf, i: nat)
    ensures Shaped(FrameDone(x.surface).surface) && FrameDone(x.surface).message == Some(Frame)
    ensures HasBuffer(x, i) ==>
              i < |x.surface.slots| && x.surface.slots[i].Some? && Shaped(BufferRelease(x.surface, i).surface)
              && BufferRelease(x.surface, i).message == Some(Release(i))
  {
    hide Watch;
  }

  // ---------- surfaces that come and go ----------

  lemma {:induction false} IndexAppend(xs: seq<LockSurf>, x: LockSurf, id: nat)
    requires x.id != id
    ensures Lookup(xs + [x], id) == Lookup(xs, id)
    decreases |xs|
  {
    if xs != [] {
      assert (xs + [x])[1..] == xs[1..] + [x];
      IndexAppend(xs[1..], x, id);
    } else {
      assert (xs + [x])[1..] == [];
    }
  }

  lemma CreateKeepsOthers(s: Session, o: OutputInfo, t: Frames.System, id: nat)
    requires Agrees(s, t, id) && id < s.nextId
    ensures Agrees(CreateSurface(s, o), t, id)
  {
    IndexAppend(s.surfaces, LockSurf(s.nextId, o.id, NEW_SURFACE, []), id);
    hide Lookup, About, Keeps, Frames.Sound;
  }

  lemma WithoutAt(xs: seq<LockSurf>, k: nat)
    requires k < |xs|
    ensures |Without(xs, k)| == |xs| - 1
    ensures forall j :: 0 <= j < |xs| - 1 ==> Without(xs, k)[j] == if j < k then xs[j] else xs[j + 1]
  {
  }

  lemma LookupWithout(xs: seq<LockSurf>, k: nat, nextId: nat, id: nat)
    requires Apart(xs, nextId) && k < |xs| && xs[k].id != id && Lookup(xs, id).Some?
    ensures Lookup(Without(xs, k), id) == Lookup(xs, id)
  {
    var rest, j := Without(xs, k), IndexOf(xs, id);
    WithoutAt(xs, k);
    WithoutOutputs(xs, k, nextId);
    hide Without, OutputsOf, IndexOf;
    var j' := if j < k then j else j - 1;
    assert rest[j'] == xs[j];
    SurfaceAt(rest, j', nextId);
  }

  /** Without the surface k, the others are as they were. */
  lemma WithoutAgrees(s: Session, s': Session, k: nat, t: Frames.System, id: nat)
    requires Apart(s.surfaces, s.nextId) && k < |s.surfaces| && Agrees(s, t, id) && s.surfaces[k].id != id
    requires s'.surfaces == Without(s.surfaces, k) && s'.running == s.running && s'.sent == s.sent
    ensures Agrees(s', t, id)
  {
    LookupWithout(s.surfaces, k, s.nextId, id);
    hide Lookup, About, Keeps, Frames.Sound, Without, Apart;
  }

  lemma SentApart(s: Session, id: nat, m: Down, sent: Sent)
    requires Apart(s.surfaces, s.nextId)
    ensures var s' := ScrSend(s, id, m, sent);
            Apart(s'.surfaces, s'.nextId) && |s'.surfaces| == |s.surfaces|
            && forall k :: 0 <= k < |s.surfaces| ==> s'.surfaces[k].id == s.surfaces[k].id
  {
    ScrSendSame(s, id, m, sent);
    hide ScrSend;
  }

  lemma DestroyElsewhere(modifiers: seq<nat>, s: Session, k: nat, sent: Sent, t: Frames.System, id: nat)
    requires Apart(s.surfaces, s.nextId) && k < |s.surfaces| && Agrees(s, t, id) && s.surfaces[k].id != id
    ensures Agrees(DestroySurface(s, k, sent), Frames.After(t, modifiers, Elsewhere(s, Some(Remove), sent)), id)
  {
    hide Agrees, Apart, Frames.Stop, Frames.After, ScrSend, Frames.Sound;
    AgreesSound(s, t, id);
    Goes(t, modifiers);
    SendOtherAgrees(s, s.surfaces[k].id, Remove, sent, t, id);
    SentApart(s, s.surfaces[k].id, Remove, sent);
    var s1 := ScrSend(s, s.surfaces[k].id, Remove, sent);
    WithoutAgrees(s1, DestroySurface(s, k, sent), k, Frames.After(t, modifiers, Elsewhere(s, Some(Remove), sent)), id);
  }

  lemma RemovedSteps(modifiers: seq<nat>, s: Session, e: Event, t: Frames.System, id: nat)
      returns (steps: seq<Frames.Event>)
    requires Apart(s.surfaces, s.nextId) && Agrees(s, t, id) && e.OutputRemoved?
    ensures OnlyEnds(steps)
    ensures Lookup(Step(s, modifiers, e).surfaces, id).Some? ==>
              Agrees(Step(s, modifiers, e), Frames.After(t, modifiers, steps), id)
  {
    AgreesSound(s, t, id);
    FewEnds();
    hide *;
    Goes(t, modifiers);
    var k := SurfaceOn(s.surfaces, e.gone);
    RemovedStepIs(modifiers, s, e, k);
    steps := [];
    if k < |s.surfaces| {
      if s.surfaces[k].id == id {
        GoneFromList(s, k, e.sent);
      } else {
        DestroyElsewhere(modifiers, s, k, e.sent, t, id);
        steps := Elsewhere(s, Some(Remove), e.sent);
        ElsewhereFew(s, Some(Remove), e.sent);
      }
    }
  }

  lemma RemovedStepIs(modifiers: seq<nat>, s: Session, e: Event, k: nat)
    requires e.OutputRemoved? && k == SurfaceOn(s.surfaces, e.gone)
    ensures k <= |s.surfaces|
    ensures Step(s, modifiers, e) == if k < |s.surfaces| then DestroySurface(s, k, e.sent) else s
  {
    hide DestroySurface, SurfaceOn;
  }

  lemma ElsewhereFew(s: Session, message: Option<Down>, sent: Sent)
    ensures OnlyEnds(Elsewhere(s, message, sent)) && |Elsewhere(s, message, sent)| <= 1
  {
  }

  lemma GoneFromList(s: Session, k: nat, sent: Sent)
    requires Apart(s.surfaces, s.nextId) && k < |s.surfaces|
    ensures Lookup(DestroySurface(s, k, sent).surfaces, s.surfaces[k].id) == None
  {
    ScrSendSame(s, s.surfaces[k].id, Remove, sent);
    var s1 := ScrSend(s, s.surfaces[k].id, Remove, sent);
    WithoutAt(s1.surfaces, k);
    var rest := Without(s1.surfaces, k);
    assert forall j :: 0 <= j < |rest| ==> rest[j].id != s.surfaces[k].id;
    hide ScrSend, Without;
  }

  // ---------- the lock ----------

  /** No surface is left, or none was touched and nothing sent. */
  predicate Leaves(s: Session, s': Session) {
    s'.surfaces == [] || (s'.surfaces == s.surfaces && s'.running == s.running && s'.sent == s.sent)
  }

  lemma UnlockLeaves(s: Session)
    ensures Leaves(s, Unlock(s))
  {
    if s.state == Locked && s.lock.Some? {
      var ended := s.(trace := s.trace + [UnlockAndDestroy(s.lock.value)], lock := None, state := Unlocked);
      DestroySurfacesEmpty(StopScreensaver(ended));
    }
    hide DestroySurfaces, StopScreensaver;
  }

  lemma LockedLeaves(s: Session)
    requires s.lock.Some?
    ensures Leaves(s, OnLocked(s))
  {
    forall x: Session {
      UnlockLeaves(x);
    }
    hide Unlock;
  }

  lemma FinishedLeaves(s: Session)
    requires s.lock.Some?
    ensures OnFinished(s).surfaces == []
  {
    var heard := s.trace + [FinishedEvent(s.lock.value)];
    var answered :=
      if s.state == Locked then s.(trace := heard + [UnlockAndDestroy(s.lock.value)], hints := s.hints + [false])
      else s.(trace := heard + [DestroyLock(s.lock.value)]);
    DestroySurfacesEmpty(StopScreensaver(answered.(lock := None, state := Unlocked, unlockWhenLocked := false)));
    hide DestroySurfaces, StopScreensaver;
  }

  /** An unlock or an answer takes all surfaces away, or leaves them and what is sent alone. */
  lemma AnswersLeave(modifiers: seq<nat>, s: Session, e: Event)
    requires e.UnlockAsked? || e.LockLocked? || e.LockFinished?
    ensures Leaves(s, Step(s, modifiers, e))
  {
    hide Unlock, OnLocked, OnFinished;
    UnlockLeaves(s);
    if s.lock.Some? {
      LockedLeaves(s);
      FinishedLeaves(s);
    }
  }

  lemma SameAgrees(s: Session, s': Session, t: Frames.System, id: nat)
    requires s'.surfaces == s.surfaces && s'.running == s.running && s'.sent == s.sent
    ensures Agrees(s, t, id) <==> Agrees(s', t, id)
  {
  }

  lemma NoSurfaces(id: nat)
    ensures Lookup([], id) == None
  {
  }

  /** Locking, and anything else that is not about a surface. */
  lemma LockEventSteps(modifiers: seq<nat>, s: Session, e: Event, t: Frames.System, id: nat)
    requires Flags(s) && Agrees(s, t, id)
    requires e.LockAsked? || e.GoingToSleep? || e.UnlockAsked? || e.LockLocked? || e.LockFinished? || e.WokeUp?
    ensures Lookup(Step(s, modifiers, e).surfaces, id).Some? ==> Agrees(Step(s, modifiers, e), t, id)
  {
    var s' := Step(s, modifiers, e);
    NoSurfaces(id);
    if e.UnlockAsked? || e.LockLocked? || e.LockFinished? {
      AnswersLeave(modifiers, s, e);
    } else {
      assert s.state != Unlocked;
      assert s'.surfaces == s.surfaces && s'.running == s.running && s'.sent == s.sent;
    }
    hide *;
    if s'.surfaces != [] {
      SameAgrees(s, s', t, id);
    }
  }

  // ---------- every event ----------

  /** What the events of one surface are to the session. */
  lemma SurfaceStep(modifiers: seq<nat>, s: Session, e: Event)
    requires OfSurface(e)
    ensures var k := IndexOf(s.surfaces, e.id);
            && (e.LoaderSays? ==> Step(s, modifiers, e) == Receive(s, modifiers, e.id, e.message, e.whole))
            && (k == |s.surfaces| && !e.LoaderSays? ==> Step(s, modifiers, e) == s)
            && (k < |s.surfaces| && e.SizeGiven? ==>
                  Step(s, modifiers, e) == ConfigureSurface(s, k, e.size, e.hasMemory, e.sent, e.blurSent))
            && (k < |s.surfaces| && e.ImportFailed? ==>
                  Step(s, modifiers, e) == if Importing(s.surfaces[k].surface, e.slot) then ScreensaverFailed(s) else s)
  {
    hide Receive, ConfigureSurface, ScreensaverFailed, Importing, IndexOf, ActOn, Shell, ParamsCreated, Watch;
  }

  /** A message for this surface is the next the exchange has on its way. */
  predicate Says(s: Session, t: Frames.System, id: nat, e: Event) {
    e.LoaderSays? ==> e.whole && s.running && (e.id == id ==> t.up != [] && t.up[0] == e.message)
  }

  /** The surface's own events are steps of its exchange, and others' at most end it. */
  predicate Takes(e: Event, id: nat, steps: seq<Frames.Event>) {
    if OfSurface(e) && e.id == id && !e.ImportFailed? then OwnSteps(e, steps) else OnlyEnds(steps)
  }

  /** Only a message for the surface is taken off its channel. */
  lemma TakesShellOnly(e: Event, id: nat, steps: seq<Frames.Event>)
    requires Takes(e, id, steps) && !(e.LoaderSays? && e.id == id)
    ensures ShellOnly(steps)
  {
  }

  lemma SurfaceEventSteps(modifiers: seq<nat>, s: Session, e: Event, t: Frames.System, id: nat)
      returns (steps: seq<Frames.Event>)
    requires Good(s) && Agrees(s, t, id) && OfSurface(e) && Says(s, t, id, e)
    ensures Takes(e, id, steps) && Agrees(Step(s, modifiers, e), Frames.After(t, modifiers, steps), id)
  {
    var k := IndexOf(s.surfaces, e.id);
    assert Apart(s.surfaces, s.nextId) && (k < |s.surfaces| ==> s.surfaces[k].id == e.id)
           && (k == |s.surfaces| ==> e.id != id);
    AgreesSound(s, t, id);
    hide Step, Agrees, Frames.After, Good, ConfigureSurface, Receive, Apart, IndexOf, Frames.Sound,
      Frames.Stop;
    SurfaceStep(modifiers, s, e);
    Goes(t, modifiers);
    if e.ImportFailed? || (k == |s.surfaces| && !e.LoaderSays?) {
      FailedAgrees(s, t, id);
      steps := if k < |s.surfaces| && Importing(s.surfaces[k].surface, e.slot) then [Frames.LoaderGone] else [];
      FewEnds();
    } else if e.id != id {
      if e.LoaderSays? {
        steps := ReceiveElsewhere(modifiers, s, e.id, e.message, e.whole, t, id);
      } else if e.SizeGiven? {
        steps := SizeGivenElsewhere(modifiers, s, k, e, t, id);
      } else {
        steps := BufferEventElsewhere(modifiers, s, k, e, t, id);
      }
    } else if e.LoaderSays? {
      ReceiveHere(modifiers, s, k, e.message, t, id);
      steps := [Frames.ShellReceives];
    } else if e.SizeGiven? {
      steps := SizeGivenHere(modifiers, s, k, e, t, id);
    } else {
      steps := BufferEventHere(modifiers, s, k, e, t, id);
    }
  }

  lemma FewEnds()
    ensures OnlyEnds([]) && OnlyEnds([Frames.LoaderGone])
  {
  }

  /**
   To each surface that is there and stays, every event of the session is at
   most two steps of its frame exchange, the shell's and the compositor's.
   */
  lemma EventIsSteps(modifiers: seq<nat>, s: Session, e: Event, t: Frames.System, id: nat)
      returns (steps: seq<Frames.Event>)
    requires Good(s) && id < s.nextId && Agrees(s, t, id) && Says(s, t, id, e)
    ensures |steps| <= 2 && Takes(e, id, steps)
    ensures Lookup(Step(s, modifiers, e).surfaces, id).Some? ==>
              Agrees(Step(s, modifiers, e), Frames.After(t, modifiers, steps), id)
  {
    assert Flags(s) && Apart(s.surfaces, s.nextId);
    AgreesSound(s, t, id);
    FewEnds();
    var ofSurface, added, removed := OfSurface(e), e.OutputAdded?, e.OutputRemoved?;
    hide *;
    Goes(t, modifiers);
    steps := [];
    if e.OutputAdded? {
      CreateKeepsOthers(s, e.output, t, id);
      AddedStep(modifiers, s, e);
    } else if e.OutputRemoved? {
      steps := RemovedSteps(modifiers, s, e, t, id);
    } else if e.LoaderFailed? {
      FailedAgrees(s, t, id);
      AddedStep(modifiers, s, e);
      steps := [Frames.LoaderGone];
    } else if OfSurface(e) {
      steps := SurfaceEventSteps(modifiers, s, e, t, id);
    } else {
      OtherEvents(e);
      LockEventSteps(modifiers, s, e, t, id);
    }
    OnlyMessagesTake(e, id, steps);
  }

  lemma AddedStep(modifiers: seq<nat>, s: Session, e: Event)
    ensures e.OutputAdded? ==> Step(s, modifiers, e) == CreateSurface(s, e.output)
    ensures e.LoaderFailed? ==> Step(s, modifiers, e) == ScreensaverFailed(s)
  {
  }

  lemma OtherEvents(e: Event)
    ensures !OfSurface(e) && !e.OutputAdded? && !e.OutputRemoved? && !e.LoaderFailed? ==>
              e.LockAsked? || e.GoingToSleep? || e.UnlockAsked? || e.LockLocked? || e.LockFinished? || e.WokeUp?
  {
  }

  lemma OnlyMessagesTake(e: Event, id: nat, steps: seq<Frames.Event>)
    ensures !OfSurface(e) && OnlyEnds(steps) ==> Takes(e, id, steps)
    ensures Takes(e, id, steps) ==> |steps| <= 2
  {
  }
}
