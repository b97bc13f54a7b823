/**
 Shell, loader and compositor together do everything a single exchange can do.
 So what is exactly true of the sizes of one exchange is exactly true of the
 sizes of a surface in joint runs.
 */
module JointExactly {
  import opened Bytes
  import opened LockSurface
  import opened LockSession
  import opened LockInvariant
  import opened FrameRefinement
  import opened JointRuns
  import Frames = FrameProtocol
  import Invariant = FrameInvariant
  import Safety = FrameSafety
  import Pump = FramePump
  import Stall = FrameStall
  import Returning = FrameReturn
  import Loader = ScreensaverLoader

  // ---------- a world with one surface in it ----------

  predicate SentOf(s: Session, id: nat) {
    forall l :: l in s.sent ==> l.id == id
  }

  /** All that is on its way is about this surface. */
  predicate Sole(w: World, id: nat) {
    SentOf(w.s, id) && forall m :: m in w.up ==> m.id == id
  }

  lemma ScrSendOf(s: Session, id: nat, m: Down, sent: Sent)
    requires SentOf(s, id)
    ensures SentOf(ScrSend(s, id, m, sent), id)
  {
    hide BlackAll;
  }

  lemma ShellOf(s: Session, k: nat, e: Effect, sent: Sent, id: nat)
    requires SentOf(s, id) && k < |s.surfaces| && s.surfaces[k].id == id && Shaped(e.surface)
    ensures SentOf(Shell(s, k, e, sent), id)
  {
    var s1 := ActOn(s, k, e);
    assert SentOf(s1, id);
    hide ScrSend, ActOn, SentOf;
    if e.message.Some? {
      ScrSendOf(s1, id, e.message.value, sent);
    }
  }

  lemma TellOf(s: Session, sent: Sent, id: nat)
    requires SentOf(s, id)
    ensures SentOf(ScrTell(s, sent), id)
  {
    hide BlackAll;
  }

  /** A surface's own events send letters about it only. */
  lemma OwnSent(modifiers: seq<nat>, s: Session, e: Event)
    requires OfSurface(e) && SentOf(s, e.id)
    ensures SentOf(Step(s, modifiers, e), e.id)
  {
    SurfaceStep(modifiers, s, e);
    var k := IndexOf(s.surfaces, e.id);
    if e.LoaderSays? {
      ReceiveOf(modifiers, s, e);
      hide Step, Receive;
    } else if e.SizeGiven? && k < |s.surfaces| {
      var effect := SurfaceConfigure(s.surfaces[k].surface, e.size, e.hasMemory);
      assert Shaped(effect.surface);
      ShellOf(s, k, effect, e.sent, e.id);
      TellOf(Shell(s, k, effect, e.sent), e.blurSent, e.id);
      hide Step, Shell, ScrTell, SurfaceConfigure, SentOf;
    } else if k < |s.surfaces| && (e.ImportDone? || e.FrameDue? || e.BufferFreed?) {
      BufferStep(modifiers, s, k, e);
      hide Step, IndexOf, Watch;
      BufferOf(s, k, e);
    } else {
      hide Step, IndexOf, BlackAll, Importing;
    }
  }

  lemma ReceiveOf(modifiers: seq<nat>, s: Session, e: Event)
    requires e.LoaderSays? && SentOf(s, e.id)
    ensures SentOf(Receive(s, modifiers, e.id, e.message, e.whole), e.id)
  {
    hide Handle, BlackAll, IndexOf, Act;
  }

  lemma BufferOf(s: Session, k: nat, e: Event)
    requires (e.ImportDone? || e.FrameDue? || e.BufferFreed?) && SentOf(s, e.id) && k < |s.surfaces|
             && s.surfaces[k].id == e.id
    ensures var x := s.surfaces[k];
            && (e.ImportDone? && Importing(x.surface, e.slot) ==>
                SentOf(ActOn(s, k, ParamsCreated(x.surface, e.slot)), e.id))
            && (e.FrameDue? ==> SentOf(Shell(s, k, FrameDone(x.surface), e.sent), e.id))
            && (e.BufferFreed? && HasBuffer(x, e.slot) ==>
                SentOf(Shell(s, k, BufferRelease(x.surface, e.slot), e.sent), e.id))
  {
    var x := s.surfaces[k];
    SmallShaped(x, if e.BufferFreed? then e.slot else 0);
    if e.FrameDue? {
      ShellOf(s, k, FrameDone(x.surface), e.sent, e.id);
    } else if e.BufferFreed? && HasBuffer(x, e.slot) {
      ShellOf(s, k, BufferRelease(x.surface, e.slot), e.sent, e.id);
    }
    hide Shell, HasBuffer, ParamsCreated;
  }

  lemma {:induction false} AboutAll(id: nat, sent: seq<Letter>)
    requires forall l :: l in sent ==> l.id == id
    ensures |About(id, sent)| == |sent|
  {
    if sent != [] {
      AboutAll(id, sent[..|sent| - 1]);
    }
  }

  lemma {:induction false} UpAll(id: nat, up: seq<Loader.Outgoing>)
    requires forall m :: m in up ==> m.id == id
    ensures |Loader.About(id, up)| == |up|
  {
    if up != [] {
      UpAll(id, up[..|up| - 1]);
    }
  }

  // ---------- every step of the exchange is a deed ----------

  /** What does to the surface what a step does to its exchange. */
  function DeedFor(x: Frames.Event, id: nat): Deed
    requires !x.Removed?
  {
    match x
    case Configured(size, hasMemory, sent) => ShellDoes(SizeGiven(id, size, hasMemory, sent, Delivered))
    case ShellReceives => ShellHears
    case Imported(slot) => ShellDoes(ImportDone(id, slot))
    case FrameShown(sent) => ShellDoes(FrameDue(id, sent))
    case Released(slot, sent) => ShellDoes(BufferFreed(id, slot, sent))
    case LoaderGone => ShellDoes(LoaderFailed)
    case LoaderReceives(driver) => LoaderHears(driver)
    case LoaderDraws => JointRuns.LoaderDraws(id)
  }

  lemma ForWhole(x: Frames.Event, id: nat)
    requires !x.Removed? && !Drops(x)
    ensures !Loses(DeedFor(x, id), id)
  {
  }

  /** The surface is there after it. */
  lemma StillThere(modifiers: seq<nat>, w: World, x: Frames.Event, id: nat)
    requires !x.Removed? && Lookup(w.s.surfaces, id).Some? && Possible(w, DeedFor(x, id))
    ensures Lookup(Next(modifiers, w, DeedFor(x, id)).s.surfaces, id).Some?
  {
    var d := DeedFor(x, id);
    var w' := Next(modifiers, w, d);
    if d.ShellDoes? || d.ShellHears? {
      var e := if d.ShellDoes? then d.e else LoaderSays(w.up[0].id, w.up[0].body, true);
      assert w'.s == Step(w.s, modifiers, e) by {
        hide Step;
      }
      SurfaceEventSame(w.s, modifiers, e);
      hide Step, Next;
      IndexSame(w.s.surfaces, w'.s.surfaces, id);
    } else {
      LoaderLeavesSurfaces(modifiers, w, d);
      hide Next, IndexOf;
    }
  }

  /** A deed that cannot be done is for a step that cannot happen. */
  lemma NothingToDo(modifiers: seq<nat>, w: World, t: Frames.System, x: Frames.Event, id: nat)
    requires Linked(w, t, id) && Sole(w, id) && !x.Removed? && !Possible(w, DeedFor(x, id))
    ensures Frames.Sound(t) && Frames.Step(t, modifiers, x) == t
  {
    LinkedParts(w, t, id);
    AboutAll(id, w.s.sent);
    UpAll(id, w.up);
    hide Linked, Agrees, Frames.Sound, About, Loader.About;
  }

  /** The deed is that one step. */
  lemma DeedIsStep(modifiers: seq<nat>, w: World, t: Frames.System, x: Frames.Event, id: nat)
    requires Good(w.s) && Linked(w, t, id) && Sole(w, id) && !x.Removed? && Possible(w, DeedFor(x, id))
    ensures Frames.Sound(t) && Linked(Next(modifiers, w, DeedFor(x, id)), Frames.Step(t, modifiers, x), id)
  {
    hide *;
    LinkedView(w, t, id);
    if x.LoaderGone? {
      LinkedParts(w, t, id);
      EndLinked(modifiers, w, t, id);
      GoneDeed(x, id);
    } else {
      OwnDeedIsStep(modifiers, w, t, x, id);
    }
  }

  lemma GoneDeed(x: Frames.Event, id: nat)
    requires x.LoaderGone?
    ensures DeedFor(x, id) == ShellDoes(LoaderFailed)
  {
  }

  lemma OwnDeedIsStep(modifiers: seq<nat>, w: World, t: Frames.System, x: Frames.Event, id: nat)
    requires Good(w.s) && Linked(w, t, id) && Sole(w, id) && !x.Removed? && Possible(w, DeedFor(x, id))
    requires !x.LoaderGone?
    ensures Frames.Sound(t) && Linked(Next(modifiers, w, DeedFor(x, id)), Frames.Step(t, modifiers, x), id)
  {
    hide Next, Good, Linked, Lookup, Frames.Sound, Frames.After, Frames.Step, View, Sole;
    var d := DeedFor(x, id);
    LinkedView(w, t, id);
    StillThere(modifiers, w, x, id);
    LookupKnown(w.s, id);
    FirstIsOwn(w, id);
    var steps := DeedSteps(modifiers, w, d, t, id);
    OneOwn(x, id, steps);
    assert steps == [x];
    OneStep(t, modifiers, x);
  }

  lemma FirstIsOwn(w: World, id: nat)
    requires Sole(w, id)
    ensures (w.up != [] ==> w.up[0].id == id) && (w.s.sent != [] ==> w.s.sent[0].id == id)
  {
  }

  lemma OneOwn(x: Frames.Event, id: nat, steps: seq<Frames.Event>)
    requires !x.Removed? && !x.LoaderGone?
    ensures DeedFor(x, id).ShellDoes? && Takes(DeedFor(x, id).e, id, steps) ==> steps == [x]
  {
  }

  lemma EndLinked(modifiers: seq<nat>, w: World, t: Frames.System, id: nat)
    requires Frames.Sound(t) && Linked(w, t, id)
    ensures Linked(Next(modifiers, w, ShellDoes(LoaderFailed)), Frames.Step(t, modifiers, Frames.LoaderGone), id)
  {
    FailedAgrees(w.s, t, id);
    ShellOnlyStep(t, modifiers, Frames.LoaderGone);
    AddedStep(modifiers, w.s, LoaderFailed);
    hide Agrees, Frames.Stop, ScreensaverFailed, Step;
  }

  lemma NextSole(modifiers: seq<nat>, w: World, x: Frames.Event, id: nat)
    requires Sole(w, id) && !x.Removed? && Possible(w, DeedFor(x, id))
    ensures Sole(Next(modifiers, w, DeedFor(x, id)), id)
  {
    var d := DeedFor(x, id);
    match d
    case ShellDoes(e) =>
      if e.LoaderFailed? {
        AddedStep(modifiers, w.s, e);
        TellOf(w.s, Broken, id);
      } else {
        OwnSent(modifiers, w.s, e);
      }
      hide Step, ScreensaverFailed;
    case ShellHears => OwnSent(modifiers, w.s, LoaderSays(w.up[0].id, w.up[0].body, true)); hide Step;
    case LoaderHears(driver) =>
      var l := w.s.sent[0];
      TaggedIds(l.id, Frames.Hear(Get(w.outputs, l.id), l.body, driver).messages);
      assert l in w.s.sent;
      hide Frames.Hear, Tagged;
    case LoaderDraws(_) =>
      TaggedIds(id, Frames.OutputDraw(w.outputs[id]).messages);
      hide Frames.OutputDraw, Tagged;
  }

  // ---------- every run of the exchange is in some joint run ----------

  /** A joint run is to one surface this state of its exchange; nothing about it was lost, if `whole`. */
  ghost predicate In(whole: bool, modifiers: seq<nat>, deeds: seq<Deed>, id: nat, t: Frames.System) {
    var w := JointRun(modifiers, deeds);
    Linked(w, t, id) && Sole(w, id) && (whole ==> Whole(deeds, id))
  }

  ghost predicate Realized(whole: bool, modifiers: seq<nat>, t: Frames.System) {
    exists deeds, id :: In(whole, modifiers, deeds, id, t)
  }

  lemma InStep(whole: bool, modifiers: seq<nat>, deeds: seq<Deed>, id: nat, t: Frames.System, x: Frames.Event)
    requires In(whole, modifiers, deeds, id, t) && Frames.Sound(t) && !x.Removed? && (whole ==> !Drops(x))
    ensures Realized(whole, modifiers, Frames.Step(t, modifiers, x))
  {
    hide JointRun, Linked, Sole, Good, Known, Exchanged, Frames.Step, Next, Lookup, Frames.Sound;
    var w, d := JointRun(modifiers, deeds), DeedFor(x, id);
    JointRunLinked(modifiers, deeds);
    assert Good(w.s);
    if Possible(w, d) {
      DeedIsStep(modifiers, w, t, x, id);
      NextSole(modifiers, w, x, id);
      JointRunMore(modifiers, deeds, d);
      if whole {
        ForWhole(x, id);
      }
      hide Possible, Loses;
      assert In(whole, modifiers, deeds + [d], id, Frames.Step(t, modifiers, x));
    } else {
      NothingToDo(modifiers, w, t, x, id);
      assert In(whole, modifiers, deeds, id, t);
    }
  }

  lemma JointRunMore(modifiers: seq<nat>, deeds: seq<Deed>, d: Deed)
    ensures JointRun(modifiers, deeds + [d]) == Next(modifiers, JointRun(modifiers, deeds), d)
  {
    assert (deeds + [d])[..|deeds|] == deeds;
    hide Next;
  }

  lemma RealizedStep(whole: bool, modifiers: seq<nat>, t: Frames.System, x: Frames.Event)
    requires Realized(whole, modifiers, t) && Frames.Sound(t) && !x.Removed? && (whole ==> !Drops(x))
    ensures Realized(whole, modifiers, Frames.Step(t, modifiers, x))
  {
    var deeds, id :| In(whole, modifiers, deeds, id, t);
    hide *;
    InStep(whole, modifiers, deeds, id, t, x);
  }

  const LOCKING: Event := LockAsked(false, [OutputInfo(0, 1, false)], true, Delivered)

  lemma FirstSurface(modifiers: seq<nat>)
    ensures var w := Next(modifiers, BEGINNING, ShellDoes(LOCKING));
            && w.s.surfaces == [LockSurf(1, 0, NEW_SURFACE, [])] && w.s.running && w.s.sent == [] && w.up == []
            && w.outputs == map[]
  {
    var asked := FRESH.(unlockWhenLocked := false, lock := Some(0), nextLock := 1, trace := [] + [AskLock(0)],
                        state := Pending);
    var begun := asked.(running := true, sent := []);
    assert StartScreensaver(asked, true, Delivered) == begun;
    assert LOCKING.outputs[..0] == [];
    assert CreateAll(begun, []) == begun;
    assert CreateAll(begun, LOCKING.outputs) == CreateSurface(begun, LOCKING.outputs[0]);
    assert !HasSurfaceOn([], 0);
    assert [] + [LockSurf(1, 0, NEW_SURFACE, [])] == [LockSurf(1, 0, NEW_SURFACE, [])];
    hide CreateAll, StartScreensaver;
  }

  lemma InitialRealized(whole: bool, modifiers: seq<nat>)
    ensures Realized(whole, modifiers, Frames.Initial(true))
  {
    var d := ShellDoes(LOCKING);
    var w := Next(modifiers, BEGINNING, d);
    FirstSurface(modifiers);
    JointRunMore(modifiers, [], d);
    assert [] + [d] == [d] && JointRun(modifiers, []) == BEGINNING;
    assert Lookup(w.s.surfaces, 1) == Some(LockSurf(1, 0, NEW_SURFACE, []));
    AboutNobody(1, []);
    UpNobody(1, []);
    StartsLinked(w, LockSurf(1, 0, NEW_SURFACE, []), Frames.Initial(true), 1);
    assert !Loses(d, 1);
    hide Next, Linked, Lookup, Loses;
    assert In(whole, modifiers, [d], 1, Frames.Initial(true));
  }

  lemma RemovedGone(t: Frames.System, modifiers: seq<nat>, x: Frames.Event)
    requires Frames.Sound(t)
    ensures x.Removed? || t.surface.None? ==> Frames.Step(t, modifiers, x).surface.None?
  {
    hide Watch, Handle, Stopped, SurfaceConfigure, Frames.OutputDraw, Frames.Hear;
  }

  /** Every run of an exchange whose surface is still there is what some joint run is to a surface. */
  lemma {:induction false} RunRealized(modifiers: seq<nat>, events: seq<Frames.Event>)
    requires Frames.Run(true, modifiers, events).surface.Some?
    ensures Realized(false, modifiers, Frames.Run(true, modifiers, events))
  {
    hide *;
    if events == [] {
      InitialRealized(false, modifiers);
      RunNothing(modifiers);
    } else {
      var before, x := events[..|events| - 1], events[|events| - 1];
      Safety.RunMore(true, modifiers, events);
      RemovedGone(Frames.Run(true, modifiers, before), modifiers, x);
      RunRealized(modifiers, before);
      RealizedStep(false, modifiers, Frames.Run(true, modifiers, before), x);
    }
  }

  lemma RunNothing(modifiers: seq<nat>)
    ensures Frames.Run(true, modifiers, []) == Frames.Initial(true)
  {
  }

  ghost function Wholly(modifiers: seq<nat>): Frames.System -> bool {
    t => Realized(true, modifiers, t)
  }

  lemma WhollyClosed(modifiers: seq<nat>)
    ensures Stall.Closed(Wholly(modifiers), modifiers)
  {
    var R := Wholly(modifiers);
    InitialRealized(true, modifiers);
    hide Realized, Frames.Step, Frames.Sound, Frames.Initial;
    forall t, x | Frames.Sound(t) && R(t) && Stall.Plainly(x)
      ensures R(Frames.Step(t, modifiers, x))
    {
      RealizedStep(true, modifiers, t, x);
    }
  }

  // ---------- exactly when ----------

  ghost predicate LiveWith(w: World, id: nat, sizes: seq<Size>) {
    Lookup(w.s.surfaces, id).Some? && View(w, id).sizes <= sizes
  }

  /** In no joint run is the loader about to draw into a shown buffer of a surface with these sizes so far. */
  ghost predicate JointSafeFor(modifiers: seq<nat>, sizes: seq<Size>) {
    forall deeds, id :: LiveWith(JointRun(modifiers, deeds), id, sizes) ==>
      var t := View(JointRun(modifiers, deeds), id); Frames.Sound(t) && !Frames.Tearing(t)
  }

  /** A surface with these sizes so far, nothing about which was lost and all of whose sizes have been heard. */
  ghost predicate HeardIn(modifiers: seq<nat>, deeds: seq<Deed>, id: nat, sizes: seq<Size>) {
    var w := JointRun(modifiers, deeds);
    LiveWith(w, id, sizes) && Whole(deeds, id) && Stall.HeardAll(View(w, id))
  }

  /**
   In every joint run that has lost nothing about a surface with these sizes so
   far, once they are heard one frame is on its way, and no buffer astray.
   */
  ghost predicate JointPumpsFor(modifiers: seq<nat>, sizes: seq<Size>) {
    forall deeds, id :: HeardIn(modifiers, deeds, id, sizes) ==>
      var t := View(JointRun(modifiers, deeds), id); Frames.Sound(t) && Pump.Exact(t)
  }

  lemma InView(whole: bool, modifiers: seq<nat>, deeds: seq<Deed>, id: nat, t: Frames.System, sizes: seq<Size>)
    requires In(whole, modifiers, deeds, id, t) && t.sizes <= sizes
    ensures var w := JointRun(modifiers, deeds);
            LiveWith(w, id, sizes) && t == View(w, id).(lossy := t.lossy) && Frames.Sound(View(w, id))
  {
    LinkedView(JointRun(modifiers, deeds), t, id);
    hide Linked, Lookup, Frames.Sound, Sole;
  }

  /** In joint runs the loader is safe over exactly those sizes of which no usable one comes back. */
  lemma JointlySafeExactly(modifiers: seq<nat>, sizes: seq<Size>)
    requires modifiers != [] && Returning.Changing(sizes)
    ensures JointSafeFor(modifiers, sizes) <==> Invariant.NoReturn(sizes)
  {
    hide *;
    if Invariant.NoReturn(sizes) {
      NoReturnJointly(modifiers, sizes);
    } else {
      ReturnJointly(modifiers, sizes);
    }
  }

  lemma NoReturnJointly(modifiers: seq<nat>, sizes: seq<Size>)
    requires Invariant.NoReturn(sizes)
    ensures JointSafeFor(modifiers, sizes)
  {
    hide View, Invariant.NoReturn, JointRun, Lookup;
    forall deeds, id | LiveWith(JointRun(modifiers, deeds), id, sizes)
      ensures var t := View(JointRun(modifiers, deeds), id); Frames.Sound(t) && !Frames.Tearing(t)
    {
      Returning.NoReturnPrefix(View(JointRun(modifiers, deeds), id).sizes, sizes);
      JointlySafe(modifiers, deeds, id);
    }
  }

  lemma ReturnJointly(modifiers: seq<nat>, sizes: seq<Size>)
    requires modifiers != [] && Returning.Changing(sizes) && !Invariant.NoReturn(sizes)
    ensures !JointSafeFor(modifiers, sizes)
  {
    hide Frames.Valid, Frames.Tearing, Frames.Sound, JointRun, In, View, LiveWith, JointSafeFor, Returning.Changing;
    var i, k, j :| 0 <= i < k < j < |sizes| && Frames.Valid(sizes[i]) && Frames.Valid(sizes[k]) && sizes[i] == sizes[j]
      && sizes[k] != sizes[i];
    var t := Returning.ReturnReaches(modifiers, sizes, i, k, j);
    ReturnsJointly(modifiers, sizes, t);
  }

  lemma ReturnsJointly(modifiers: seq<nat>, sizes: seq<Size>, t: Frames.System)
    requires Returning.Reached(modifiers, t) && Frames.Sound(t) && Frames.Tearing(t) && t.surface.Some?
             && t.sizes <= sizes
    ensures !JointSafeFor(modifiers, sizes)
  {
    var events :| Frames.Run(true, modifiers, events) == t;
    RunRealized(modifiers, events);
    hide Frames.Run, Frames.Tearing, Frames.Sound, JointRun, In, View, LiveWith;
    var deeds, id :| In(false, modifiers, deeds, id, t);
    InView(false, modifiers, deeds, id, t, sizes);
    var u := View(JointRun(modifiers, deeds), id);
    LossyApart(u, t.lossy);
  }

  /** What a joint run is to a surface about which nothing was lost. */
  lemma WholeView(modifiers: seq<nat>, deeds: seq<Deed>, id: nat) returns (running: bool, events: seq<Frames.Event>)
    requires Lookup(JointRun(modifiers, deeds).s.surfaces, id).Some? && Whole(deeds, id)
    ensures View(JointRun(modifiers, deeds), id) == Frames.Run(running, modifiers, events)
  {
    var w := JointRun(modifiers, deeds);
    JointRunLinked(modifiers, deeds);
    assert Exchanged(true, modifiers, w, id);
    hide AllLinked, JointRun, Linked, Lookup, View;
    running, events :| Linked(w, Frames.Run(running, modifiers, events), id)
      && !Frames.Run(running, modifiers, events).lossy;
    LinkedView(w, Frames.Run(running, modifiers, events), id);
    ViewWhole(w, id);
    hide Frames.Run;
  }

  lemma ViewWhole(w: World, id: nat)
    requires Lookup(w.s.surfaces, id).Some?
    ensures !View(w, id).lossy
  {
    hide Lookup;
  }

  /**
   In joint runs sizes of which no usable one returns after another never stall
   a surface exactly if no usable one is followed by unusable ones only and then
   by itself; where one is, a joint run that loses nothing leaves it stuck.
   */
  lemma JointlyPumpsExactly(modifiers: seq<nat>, sizes: seq<Size>)
    requires Returning.Changing(sizes) && Invariant.NoReturn(sizes)
    ensures JointPumpsFor(modifiers, sizes) <==> Stall.NoLull(sizes)
    ensures !Stall.NoLull(sizes) ==>
              exists deeds, id :: StuckIn(modifiers, deeds, id, sizes)
  {
    hide *;
    if Stall.NoLull(sizes) {
      NoLullJointly(modifiers, sizes);
    } else {
      LullJointly(modifiers, sizes);
    }
  }

  lemma NoLullJointly(modifiers: seq<nat>, sizes: seq<Size>)
    requires Returning.Changing(sizes) && Invariant.NoReturn(sizes) && Stall.NoLull(sizes)
    ensures JointPumpsFor(modifiers, sizes)
  {
    hide Stall.NoLull, Invariant.NoReturn, Returning.Changing, JointRun, Whole, View, Stall.HeardAll, Lookup,
      Frames.Run,
      Pump.Exact, Frames.Sound;
    forall deeds, id | HeardIn(modifiers, deeds, id, sizes)
      ensures var t := View(JointRun(modifiers, deeds), id); Frames.Sound(t) && Pump.Exact(t)
    {
      var running, events := WholeView(modifiers, deeds, id);
      Stall.NoLullPumps(modifiers, sizes, running, events);
    }
  }

  lemma LullJointly(modifiers: seq<nat>, sizes: seq<Size>)
    requires Returning.Changing(sizes) && !Stall.NoLull(sizes)
    ensures !JointPumpsFor(modifiers, sizes) && exists deeds, id :: StuckIn(modifiers, deeds, id, sizes)
  {
    hide Invariant.NoReturn, Frames.Valid, JointRun, In, View, LiveWith, Stall.Stuck, Stall.HeardAll, Stall.Closed,
      Pump.Exact, Frames.Sound, JointPumpsFor, StuckIn, Returning.Changing;
    var i, j :| 0 <= i < i + 1 < j < |sizes| && Frames.Valid(sizes[i]) && sizes[i] == sizes[j]
      && forall k :: i < k < j ==> !Frames.Valid(sizes[k]);
    WhollyClosed(modifiers);
    var t := Stall.LullStalls(Wholly(modifiers), modifiers, sizes, i, j);
    StallsJointly(modifiers, sizes, t);
  }

  ghost predicate StuckIn(modifiers: seq<nat>, deeds: seq<Deed>, id: nat, sizes: seq<Size>) {
    HeardIn(modifiers, deeds, id, sizes) && Stall.Stuck(View(JointRun(modifiers, deeds), id))
  }

  lemma StallsJointly(modifiers: seq<nat>, sizes: seq<Size>, t: Frames.System)
    requires Realized(true, modifiers, t) && Stall.Stuck(t) && Stall.HeardAll(t) && t.sizes <= sizes
    ensures !JointPumpsFor(modifiers, sizes) && exists deeds, id :: StuckIn(modifiers, deeds, id, sizes)
  {
    var deeds, id :| In(true, modifiers, deeds, id, t);
    assert !t.lossy && Whole(deeds, id);
    InView(true, modifiers, deeds, id, t, sizes);
    hide JointRun, In, LiveWith, Whole;
    ViewWhole(JointRun(modifiers, deeds), id) by {
      assert LiveWith(JointRun(modifiers, deeds), id, sizes);
    }
    Stall.StuckNoFrame(t);
    assert StuckIn(modifiers, deeds, id, sizes);
  }
}
