/** The session lock as the shell runs it: handlers that update it in place. */
module Lock {
  import opened Bytes
  import opened LockSurface
  import opened LockSession
  import opened LockInvariant
  import opened LockSafety

  datatype Datagram = Datagram(id: nat, message: Up, whole: bool)

  /** scr_process: messages are taken until there are no more or the screensaver is gone. */
  function ReceiveAll(s: Session, modifiers: seq<nat>, ms: seq<Datagram>): Session {
    if ms == [] then s
    else
      var m := ms[|ms| - 1];
      Receive(ReceiveAll(s, modifiers, ms[..|ms| - 1]), modifiers, m.id, m.message, m.whole)
  }

  lemma {:induction false} ReceiveNothing(s: Session, modifiers: seq<nat>, ms: seq<Datagram>, n: nat)
    requires n <= |ms| && !ReceiveAll(s, modifiers, ms[..n]).running
    ensures ReceiveAll(s, modifiers, ms) == ReceiveAll(s, modifiers, ms[..n])
    decreases |ms|
  {
    if n < |ms| {
      assert ms[..|ms| - 1][..n] == ms[..n];
      ReceiveNothing(s, modifiers, ms[..|ms| - 1], n);
    } else {
      assert ms[..n] == ms;
    }
  }

  class TCCLock {
    const modifiers: seq<nat>
    var mState: State
    var mLock: Option<nat>
    var mNextLock: nat
    var mUnlockWhenLocked: bool
    var mSleepPending: bool
    var mInhibitor: bool
    var mSurfaces: seq<LockSurf>
    var buried: seq<LockSurf>
    var mNextSurfaceId: nat
    var mScrRunning: bool
    var trace: seq<Wire>
    var hints: seq<bool>
    var sent: seq<Letter>

    constructor (modifiers: seq<nat>)
      ensures this.modifiers == modifiers && Snap() == FRESH && Valid() && Fits(Snap())
    {
      this.modifiers := modifiers;
      mState, mLock, mNextLock, mUnlockWhenLocked, mSleepPending, mInhibitor := Unlocked, None, 0, false, false, false;
      mSurfaces, buried, mNextSurfaceId, mScrRunning, trace, hints, sent := [], [], 1, false, [], [], [];
      new;
      RunGood(modifiers, []);
      assert LockSession.Run(modifiers, []) == Snap();
    }

    function Snap(): Session
      reads this
    {
      Session(mState, mLock, mNextLock, mUnlockWhenLocked, mSleepPending, mInhibitor,
              mSurfaces, buried, mNextSurfaceId, mScrRunning, trace, hints, sent)
    }

    /**
     The lock object and the flags agree with the state and with what logind was
     told, each output has one lock surface at most, and no request on the lock
     object was out of place.
     */
    ghost predicate Valid()
      reads this
    {
      Good(Snap())
    }

    // ---------- the screensaver ----------

    method ScrDestroyBuffers(k: nat)
      requires k < |mSurfaces|
      modifies this`mSurfaces
      ensures mSurfaces == old(mSurfaces)[k := Act(old(mSurfaces[k]), DestroyBuffers(old(mSurfaces[k].surface)))]
    {
      var x := mSurfaces[k];
      var slots := x.surface.slots;
      var requests := x.requests;
      var i := 0;
      while i < SLOTS
        invariant 0 <= i <= SLOTS && |slots| == SLOTS
        invariant forall j :: 0 <= j < SLOTS ==> slots[j] == if j < i then None else x.surface.slots[j]
        invariant requests == x.requests + DropSlots(x.surface.slots, i)
      {
        requests := requests + DropSlot(slots[i]);
        slots := slots[i := None];
        i := i + 1;
      }
      assert slots == NO_SLOTS;
      mSurfaces := mSurfaces[k :=
          x.(surface := x.surface.(slots := slots, frameCallback := false), requests := requests)];
    }

    method StopScreensaver()
      modifies this`mSurfaces, this`mScrRunning
      ensures Snap() == LockSession.StopScreensaver(old(Snap()))
    {
      mScrRunning := false;
      var k := 0;
      while k < |mSurfaces|
        invariant k <= |mSurfaces| == |old(mSurfaces)| && !mScrRunning
        invariant forall j :: 0 <= j < |mSurfaces| ==>
                    mSurfaces[j] == if j < k then StopAll(old(mSurfaces))[j] else old(mSurfaces)[j]
      {
        ScrDestroyBuffers(k);
        k := k + 1;
      }
      assert mSurfaces == StopAll(old(mSurfaces));
    }

    method ShowBlack(k: nat)
      requires k < |mSurfaces|
      modifies this`mSurfaces
      ensures mSurfaces ==
              old(mSurfaces)[k := old(mSurfaces[k]).(requests := old(mSurfaces[k].requests)
                  + LockSurface.ShowBlack(old(mSurfaces[k].surface)))]
    {
      var x := mSurfaces[k];
      if x.surface.black.Some? {
        mSurfaces := mSurfaces[k := x.(requests := x.requests + [Attach(Black(x.surface.black.value)), Commit])];
      } else {
        assert x.requests + [] == x.requests;
      }
    }

    method ScreensaverFailed()
      modifies this`mSurfaces, this`mScrRunning
      ensures Snap() == LockSession.ScreensaverFailed(old(Snap()))
      ensures SameLock(old(Snap()), Snap()) && (old(Valid()) ==> Valid()) && (old(Fits(Snap())) ==> Fits(Snap()))
      ensures !mScrRunning
              && (old(mScrRunning) ==> forall k :: 0 <= k < |mSurfaces| ==> mSurfaces[k].surface.slots == NO_SLOTS)
    {
      FailedKeeps(Snap());
      hide Good, Fits, SameLock;
      if !mScrRunning {
        return;
      }
      StopScreensaver();
      ghost var stopped := mSurfaces;
      var k := 0;
      while k < |mSurfaces|
        invariant k <= |mSurfaces| == |stopped| == |old(mSurfaces)| && !mScrRunning
        invariant forall j :: 0 <= j < |mSurfaces| ==>
                    mSurfaces[j] == if j < k then BlackAll(old(mSurfaces))[j] else stopped[j]
      {
        BlackIs(old(mSurfaces)[k]);
        if mSurfaces[k].surface.configured {
          ShowBlack(k);
        }
        k := k + 1;
      }
      assert mSurfaces == BlackAll(old(mSurfaces));
    }

    method ScrSend(id: nat, m: Down, how: Sent)
      modifies this`mSurfaces, this`mScrRunning, this`sent
      ensures Snap() == LockSession.ScrSend(old(Snap()), id, m, how)
      ensures SameLock(old(Snap()), Snap()) && (old(Valid()) ==> Valid()) && (old(Fits(Snap())) ==> Fits(Snap()))
    {
      SendKeeps(Snap(), id, m, how);
      hide Good, Fits, SameLock, LockSession.ScreensaverFailed;
      if !mScrRunning {
        return;
      }
      match how
      case Delivered => sent := sent + [Letter(id, m)];
      case Dropped =>
      case Broken => ScreensaverFailed();
    }

    method ScrTell(how: Sent)
      modifies this`mSurfaces, this`mScrRunning
      ensures Snap() == LockSession.ScrTell(old(Snap()), how)
    {
      if how.Broken? {
        ScreensaverFailed();
      }
    }

    method StartScreensaver(loader: bool, how: Sent)
      modifies this`mSurfaces, this`mScrRunning, this`sent
      ensures Snap() == LockSession.StartScreensaver(old(Snap()), loader, how)
    {
      if !loader {
        return;
      }
      mScrRunning, sent := true, [];
      ScrTell(how);
    }

    method SurfaceFromId(id: nat) returns (k: nat)
      ensures k == IndexOf(mSurfaces, id)
    {
      k := 0;
      while k < |mSurfaces| && mSurfaces[k].id != id
        invariant k <= |mSurfaces| && forall j :: 0 <= j < k ==> mSurfaces[j].id != id
      {
        k := k + 1;
      }
      IndexIs(mSurfaces, id, k);
    }

    method SetSurface(k: nat, e: Effect)
      requires k < |mSurfaces| && Shaped(e.surface)
      modifies this`mSurfaces
      ensures Snap() == ActOn(old(Snap()), k, e)
    {
      mSurfaces := mSurfaces[k := Act(mSurfaces[k], e)];
    }

    /** False if the loader is misbehaving. */
    method ScrHandle(id: nat, m: Up) returns (ok: bool)
      modifies this`mSurfaces
      ensures ok == LockSession.ScrHandle(old(Snap()), modifiers, id, m).Some?
      ensures Snap() == if ok then LockSession.ScrHandle(old(Snap()), modifiers, id, m).value else old(Snap())
    {
      if (!m.Buffer? && m.fd.Some?) || m.buffer >= SLOTS {
        return false;
      }
      var k := SurfaceFromId(id);
      if k == |mSurfaces| {
        return m.Ready? || (m.Buffer? && m.fd.Some?);
      }
      match m
      case Buffer(i, size, layout, fd) =>
        if fd.None? {
          return false;
        }
        ok := ScrHandleBuffer(k, m);
      case Ready(i, _, _) =>
        var b := mSurfaces[k].surface.slots[i];
        if b.None? || b.value.size != mSurfaces[k].surface.size {
          EffectNothing(mSurfaces, k);
        } else if b.value.imported {
          ScrPresent(k, i);
        } else {
          SetSurface(k, HandleReady(mSurfaces[k].surface, i));
        }
        ok := true;
      case Unknown(_, _) => ok := false;
    }

    method ScrHandleBuffer(k: nat, m: Up) returns (ok: bool)
      requires k < |mSurfaces| && m.Buffer? && m.buffer < SLOTS && m.fd.Some?
      modifies this`mSurfaces
      ensures var e := Handle(old(mSurfaces[k].surface), modifiers, m);
              ok == e.Some? && Snap() == if ok then ActOn(old(Snap()), k, e.value) else old(Snap())
    {
      var f := mSurfaces[k].surface;
      if m.size != f.size {
        EffectNothing(mSurfaces, k);
        return true;
      }
      if !Importable(modifiers, m.size, m.layout, m.fd.value.bytes) {
        return false;
      }
      var i := m.buffer;
      var requests := mSurfaces[k].requests;
      ghost var before := requests;
      if f.slots[i].Some? {
        var b := f.slots[i].value;
        requests := requests + [if b.imported then Destroy(Drawn(b.size, b.dmabuf)) else DropImport(b.dmabuf)];
      }
      assert requests == before + DropSlot(f.slots[i]);
      var slots := f.slots[i := Some(Slot(m.size, m.fd.value.dmabuf, false, false))];
      requests := requests + [Import(m.fd.value.dmabuf)];
      assert requests == before + (DropSlot(f.slots[i]) + [Import(m.fd.value.dmabuf)]);
      mSurfaces := mSurfaces[k := mSurfaces[k].(surface := f.(slots := slots), requests := requests)];
      ok := true;
    }

    method ScrPresent(k: nat, i: nat)
      requires k < |mSurfaces| && i < SLOTS && mSurfaces[k].surface.slots[i].Some?
      modifies this`mSurfaces
      ensures Snap() == ActOn(old(Snap()), k, Present(old(mSurfaces[k].surface), i))
    {
      var x := mSurfaces[k];
      var f := x.surface;
      var b := f.slots[i].value;
      if b.size != f.size {
        EffectNothing(mSurfaces, k);
        return;
      }
      var requests := x.requests + [Attach(Drawn(b.size, b.dmabuf))];
      if !f.frameCallback {
        requests := requests + [AskFrame];
      }
      requests := requests + [Commit];
      assert requests == x.requests + Present(f, i).requests;
      mSurfaces := mSurfaces[k := x.(surface := f.(frameCallback := true), requests := requests)];
    }

    /** One message of the loader's, whole or not. */
    method ScrHear(m: Datagram)
      modifies this`mSurfaces, this`mScrRunning
      ensures Snap() == Receive(old(Snap()), modifiers, m.id, m.message, m.whole)
    {
      hide LockSession.ScrHandle, LockSession.ScreensaverFailed;
      if !mScrRunning {
        return;
      }
      var ok := m.whole;
      if ok {
        ok := ScrHandle(m.id, m.message);
      }
      if !ok {
        ScreensaverFailed();
      }
    }

    method ScrProcess(ms: seq<Datagram>)
      modifies this`mSurfaces, this`mScrRunning
      ensures Snap() == ReceiveAll(old(Snap()), modifiers, ms)
      ensures SameLock(old(Snap()), Snap()) && (old(Valid()) ==> Valid()) && (old(Fits(Snap())) ==> Fits(Snap()))
    {
      hide Good, Fits, SameLock, Receive;
      ReceiveAllKeeps(Snap(), modifiers, ms);
      var i := 0;
      while i < |ms| && mScrRunning
        invariant 0 <= i <= |ms| && Snap() == ReceiveAll(old(Snap()), modifiers, ms[..i])
      {
        assert ms[..i + 1][..i] == ms[..i];
        ScrHear(ms[i]);
        i := i + 1;
      }
      assert ms[..|ms|] == ms;
      if !mScrRunning {
        ReceiveNothing(old(Snap()), modifiers, ms, i);
      }
    }

    // ---------- events of one surface ----------

    method SurfaceConfigure(k: nat, size: Size, hasMemory: bool, how: Sent, blurHow: Sent)
      requires Valid() && k < |mSurfaces|
      modifies this`mSurfaces, this`mScrRunning, this`sent
      ensures Valid() && Snap() == ConfigureSurface(old(Snap()), k, size, hasMemory, how, blurHow)
      ensures hasMemory && old(Fits(Snap())) ==> Fits(Snap())
    {
      hide Good, Fits, SameLock, Act, ConfigureSurface, ActOn, LockSession.ScrTell, LockSession.ScrSend,
        LockSurface.SurfaceConfigure;
      ConfigureKeeps(Snap(), modifiers, k, size, hasMemory, how, blurHow);
      ConfigureIs(Snap(), k, size, hasMemory, how, blurHow);
      var x := mSurfaces[k];
      if x.surface.configured && x.surface.size == size {
        mSurfaces := mSurfaces[k := x.(requests := x.requests + [AckConfigure(size), Commit])];
      } else {
        TakeSize(k, size, hasMemory, how, blurHow);
      }
    }

    method TakeSize(k: nat, size: Size, hasMemory: bool, how: Sent, blurHow: Sent)
      requires k < |mSurfaces| && !(mSurfaces[k].surface.configured && mSurfaces[k].surface.size == size)
      modifies this`mSurfaces, this`mScrRunning, this`sent
      ensures Snap() == LockSession.ScrTell(
                          LockSession.ScrSend(
                            ActOn(old(Snap()), k,
                                  LockSurface.SurfaceConfigure(old(mSurfaces[k].surface), size, hasMemory)),
                            old(mSurfaces[k].id), Configure(size, old(mSurfaces[k].surface.gen) + 1), how), blurHow)
    {
      hide Good, Fits, SameLock, ActOn, LockSession.ScrTell, LockSession.ScrSend, LockSurface.SurfaceConfigure;
      var x := mSurfaces[k];
      Resize(k, size, hasMemory);
      ScrSend(x.id, Configure(size, x.surface.gen + 1), how);
      ScrTell(blurHow);
    }

    /** Everything sized for the old size goes, and black is shown at the new one. */
    method Resize(k: nat, size: Size, hasMemory: bool)
      requires k < |mSurfaces| && !(mSurfaces[k].surface.configured && mSurfaces[k].surface.size == size)
      modifies this`mSurfaces
      ensures Snap() == ActOn(old(Snap()), k, LockSurface.SurfaceConfigure(old(mSurfaces[k].surface), size, hasMemory))
    {
      var x := mSurfaces[k];
      var f := x.surface;
      ghost var e := LockSurface.SurfaceConfigure(f, size, hasMemory);
      ConfigureRequests(x, size, hasMemory);
      assert e.surface == Surface(size, true, if hasMemory then Some(size) else None, NO_SLOTS, false, f.gen + 1);
      hide LockSurface.SurfaceConfigure, DropSlots, LockSurface.ShowBlack;
      mSurfaces := mSurfaces[k :=
          x.(surface := f.(size := size, configured := true, gen := f.gen + 1),
             requests := x.requests + [AckConfigure(size)])];
      ScrDestroyBuffers(k);
      var requests := mSurfaces[k].requests;
      if f.black.Some? {
        requests := requests + [Destroy(Black(f.black.value))];
      }
      var black := if hasMemory then Some(size) else None;
      mSurfaces := mSurfaces[k :=
          mSurfaces[k].(surface := mSurfaces[k].surface.(black := black), requests := requests)];
      ShowBlack(k);
      assert mSurfaces[k] == Act(x, e);
      assert mSurfaces == old(mSurfaces)[k := Act(x, e)];
    }

    method ParamsCreated(k: nat, i: nat)
      requires Valid() && k < |mSurfaces| && Importing(mSurfaces[k].surface, i)
      modifies this`mSurfaces
      ensures Valid() && Snap() == ActOn(old(Snap()), k, LockSurface.ParamsCreated(old(mSurfaces[k].surface), i))
      ensures old(mSurfaces[k].surface.configured && Fits(Snap())) ==> Fits(Snap())
    {
      ImportKeeps(Snap(), modifiers, k, i);
      hide Good, Fits;
      var f := mSurfaces[k].surface;
      var b := f.slots[i].value;
      ghost var x, xs := mSurfaces[k], mSurfaces;
      var slots := f.slots[i := Some(b.(imported := true, readyPending := false))];
      mSurfaces := mSurfaces[k := mSurfaces[k].(surface := f.(slots := slots))];
      if b.readyPending {
        ScrPresent(k, i);
      } else {
        assert x.requests + [] == x.requests;
      }
      assert Snap() == ActOn(old(Snap()), k, LockSurface.ParamsCreated(f, i));
    }

    method FrameDone(k: nat, how: Sent)
      requires Valid() && k < |mSurfaces| && mSurfaces[k].surface.frameCallback
      modifies this`mSurfaces, this`mScrRunning, this`sent
      ensures Valid() && Snap() == Shell(old(Snap()), k, LockSurface.FrameDone(old(mSurfaces[k].surface)), how)
      ensures old(Fits(Snap())) ==> Fits(Snap())
    {
      FrameKeeps(Snap(), modifiers, k, how);
      hide Good, Fits;
      var x := mSurfaces[k];
      assert x.requests + [] == x.requests;
      mSurfaces := mSurfaces[k := x.(surface := x.surface.(frameCallback := false))];
      ScrSend(x.id, Frame, how);
    }

    method BufferRelease(k: nat, i: nat, how: Sent)
      requires Valid() && k < |mSurfaces| && HasBuffer(mSurfaces[k], i)
      modifies this`mSurfaces, this`mScrRunning, this`sent
      ensures Valid() && Snap() == Shell(old(Snap()), k, LockSurface.BufferRelease(old(mSurfaces[k].surface), i), how)
      ensures old(Fits(Snap())) ==> Fits(Snap())
    {
      ReleaseKeeps(Snap(), modifiers, k, i, how);
      hide Good, Fits, Watch;
      var x := mSurfaces[k];
      mSurfaces := mSurfaces[k := x.(requests := x.requests + [Freed(x.surface.slots[i].value.dmabuf)])];
      ScrSend(x.id, Release(i), how);
    }

    // ---------- lock surfaces ----------

    method CreateSurface(o: OutputInfo)
      requires Valid()
      modifies this`mSurfaces, this`mNextSurfaceId, this`trace
      ensures Valid() && Snap() == LockSession.CreateSurface(old(Snap()), o)
      ensures mLock.Some? && Usable(o) ==> HasSurfaceOn(mSurfaces, o.id)
    {
      hide Good;
      CreateGood(Snap(), o);
      CreateCovers(Snap(), o);
      if mLock.None? || o.name == 0 || o.removed {
        return;
      }
      for k := 0 to |mSurfaces|
        invariant forall j :: 0 <= j < k ==> mSurfaces[j].output != o.id
      {
        if mSurfaces[k].output == o.id {
          return;
        }
      }
      trace := trace + [GetLockSurface(mLock.value, o.id)];
      mSurfaces := mSurfaces + [LockSurf(mNextSurfaceId, o.id, NEW_SURFACE, [])];
      mNextSurfaceId := mNextSurfaceId + 1;
    }

    method DestroySurface(k: nat, how: Sent)
      requires k < |mSurfaces|
      modifies this`mSurfaces, this`buried, this`mScrRunning, this`sent, this`trace
      ensures Snap() == LockSession.DestroySurface(old(Snap()), k, how)
      ensures old(Valid()) ==> Valid() && !HasSurfaceOn(mSurfaces, old(mSurfaces[k].output))
      ensures old(Fits(Snap())) ==> Fits(Snap())
    {
      hide Good, Fits, LockSession.ScrSend;
      ghost var s := Snap();
      var x := mSurfaces[k];
      ScrSend(x.id, Remove, how);
      trace := trace + [DestroyLockSurface(x.output)];
      ScrDestroyBuffers(k);
      var gone := mSurfaces[k];
      mSurfaces := mSurfaces[..k] + mSurfaces[k + 1..];
      buried := buried + [gone];
      DestroyKeeps(s, k, how);
    }

    method DestroySurfaces()
      modifies this`mSurfaces, this`buried, this`mScrRunning, this`sent, this`trace
      ensures Snap() == LockSession.DestroySurfaces(old(Snap())) && mSurfaces == []
    {
      while mSurfaces != []
        invariant LockSession.DestroySurfaces(Snap()) == LockSession.DestroySurfaces(old(Snap()))
        invariant Snap() == old(Snap()).(surfaces := mSurfaces, buried := buried, running := mScrRunning, sent := sent,
                                         trace := trace)
        decreases |mSurfaces|
      {
        DestroyOne(Snap());
        DestroySurface(0, Dropped);
      }
    }

    // ---------- locking and unlocking ----------

    method SleepReady()
      modifies this`mSleepPending, this`mInhibitor
      ensures Snap() == LockSession.SleepReady(old(Snap()))
    {
      if mSleepPending {
        mSleepPending := false;
        mInhibitor := false;
      }
    }

    method DoLock(obstacle: bool, outputs: seq<OutputInfo>, loader: bool, how: Sent)
      requires Valid() || (mState == Unlocked && Good(Snap().(sleepPending := false)))
      modifies this
      ensures Valid() && Snap() == LockSession.DoLock(old(Snap()), obstacle, outputs, loader, how)
      ensures old(mState) == Unlocked && !obstacle ==>
                mState == Pending && forall o :: o in outputs && Usable(o) ==> HasSurfaceOn(mSurfaces, o.id)
      ensures old(mState) == Unlocked && obstacle ==> mState == Unlocked && !mSleepPending
    {
      ghost var s := Snap();
      if mState == Unlocked {
        LockKeeps(s, obstacle, outputs, loader, how);
      }
      hide Good, HasSurfaceOn, Usable, LockSession.StartScreensaver, LockSession.CreateSurface;
      if mState != Unlocked {
        return;
      }
      if obstacle {
        SleepReady();
        return;
      }
      AskForLock();
      hide Asked;
      StartScreensaver(loader, how);
      CreateSurfaces(outputs);
    }

    method AskForLock()
      modifies this
      ensures Snap() == Asked(old(Snap()))
    {
      mUnlockWhenLocked := false;
      mLock := Some(mNextLock);
      mNextLock := mNextLock + 1;
      trace := trace + [AskLock(mLock.value)];
      mState := Pending;
    }

    method CreateSurfaces(outputs: seq<OutputInfo>)
      requires Valid()
      modifies this`mSurfaces, this`mNextSurfaceId, this`trace
      ensures Valid() && Snap() == CreateAll(old(Snap()), outputs)
    {
      hide Good;
      for i := 0 to |outputs|
        invariant Snap() == CreateAll(old(Snap()), outputs[..i]) && Valid()
      {
        assert outputs[..i + 1][..i] == outputs[..i];
        CreateSurface(outputs[i]);
      }
      assert outputs[..|outputs|] == outputs;
    }

    method Unlock()
      requires Valid()
      modifies this
      ensures Valid() && Snap() == LockSession.Unlock(old(Snap()))
      ensures old(mState) == Locked ==> LetGo(Snap()) && hints == old(hints) + [false]
      ensures old(mState) == Pending ==> mUnlockWhenLocked && mState == Pending && mLock == old(mLock)
    {
      ghost var s := Snap();
      UnlockGood(s);
      UnlockIs(s);
      assert mState == Locked ==> mLock.Some?;
      hide Good, LetGo, Ended, LockSession.Unlock;
      if mState == Pending {
        mUnlockWhenLocked := true;
      } else if mState == Locked && mLock.Some? {
        EndLock();
      }
    }

    method Leave()
      modifies this`mSurfaces, this`buried, this`mScrRunning, this`sent, this`trace
      ensures Snap() == LockSession.DestroySurfaces(LockSession.StopScreensaver(old(Snap())))
    {
      StopScreensaver();
      DestroySurfaces();
    }

    /** What unlocking comes to once the session is locked. */
    method EndLock()
      requires mLock.Some?
      modifies this
      ensures Snap() == var gone := LockSession.DestroySurfaces(LockSession.StopScreensaver(Ended(old(Snap()))));
                        gone.(hints := gone.hints + [false])
    {
      hide LockSession.DestroySurfaces, LockSession.StopScreensaver;
      trace := trace + [UnlockAndDestroy(mLock.value)];
      mLock := None;
      mState := Unlocked;
      Leave();
      hints := hints + [false];
    }

    method PrepareForSleep(start: bool, inhibited: bool, obstacle: bool, outputs: seq<OutputInfo>, loader: bool,
                           how: Sent)
      requires Valid()
      modifies this
      ensures Valid()
      ensures
        var e := if start then GoingToSleep(obstacle, outputs, loader, how) else WokeUp(inhibited);
        Snap() == LockSession.Step(old(Snap()), modifiers, e) && SleepAfter(old(Snap()), e, Snap())
      ensures mSleepPending ==> mState == Pending && mLock.Some?
      ensures start && mState == Unlocked ==> obstacle && !mSleepPending && !mInhibitor
    {
      hide Good, Fits, SleepAfter, LockSession.DoLock, LockSession.Step;
      ghost var s := Snap();
      SleepIs(s, modifiers, start, inhibited, obstacle, outputs, loader, how);
      ghost var e := if start then GoingToSleep(obstacle, outputs, loader, how) else WokeUp(inhibited);
      SleepKeeps(s, modifiers, e);
      if !start {
        mInhibitor := mInhibitor || inhibited;
        return;
      }
      mSleepPending := true;
      if mState == Locked {
        SleepReady();
      } else {
        ReadyToLock(s);
        DoLock(obstacle, outputs, loader, how);
      }
    }

    method LockLocked()
      requires Valid() && mLock.Some?
      modifies this
      ensures Valid() && Snap() == OnLocked(old(Snap()))
      ensures !mSleepPending && mInhibitor == (old(mInhibitor) && !old(mSleepPending))
      ensures old(mUnlockWhenLocked) ==> LetGo(Snap()) && hints == old(hints) + [true, false]
      ensures !old(mUnlockWhenLocked) ==>
                mState == Locked && mLock == old(mLock) && hints == old(hints) + [true] && mSurfaces == old(mSurfaces)
    {
      ghost var s := Snap();
      NotedGood(s);
      if mUnlockWhenLocked {
        UnlockSleep(Noted(s));
        assert s.hints + [true] + [false] == s.hints + [true, false];
      }
      hide Good, LetGo, LockSession.Unlock, OnLocked;
      var unlock := NoteLocked();
      if unlock {
        Unlock();
      }
    }

    /** LOCKED is noted and a sleep let through; true if an unlock was asked for meanwhile. */
    method NoteLocked() returns (unlock: bool)
      requires mLock.Some?
      modifies this
      ensures Snap() == Noted(old(Snap())) && unlock == old(mUnlockWhenLocked)
    {
      trace := trace + [LockedEvent(mLock.value)];
      mState := Locked;
      hints := hints + [true];
      SleepReady();
      unlock := mUnlockWhenLocked;
      mUnlockWhenLocked := false;
    }

    method LockFinished()
      requires Valid() && mLock.Some?
      modifies this
      ensures Valid() && Snap() == OnFinished(old(Snap()))
      ensures LetGo(Snap()) && hints == if old(mState) == Locked then old(hints) + [false] else old(hints)
      ensures !mSleepPending && mInhibitor == (old(mInhibitor) && !old(mSleepPending))
    {
      ghost var s := Snap();
      OnFinishedGood(s);
      FinishedSleep(s);
      OnFinishedIs(s);
      hide Good, LetGo, Answered, LockSession.DestroySurfaces, LockSession.StopScreensaver, LockSession.SleepReady,
        OnFinished;
      AnswerFinished();
      Leave();
      SleepReady();
    }

    method AnswerFinished()
      requires mLock.Some?
      modifies this
      ensures Snap() == Answered(old(Snap()))
    {
      var lock := mLock.value;
      trace := trace + [FinishedEvent(lock)];
      if mState == Locked {
        trace := trace + [UnlockAndDestroy(lock)];
        hints := hints + [false];
      } else {
        trace := trace + [DestroyLock(lock)];
      }
      mLock := None;
      mState := Unlocked;
      mUnlockWhenLocked := false;
    }

    method OutputRemoved(output: nat, how: Sent)
      requires Valid()
      modifies this`mSurfaces, this`buried, this`mScrRunning, this`sent, this`trace
      ensures Valid() && Snap() == LockSession.Step(old(Snap()), modifiers, LockSession.OutputRemoved(output, how))
      ensures !HasSurfaceOn(mSurfaces, output) && (old(Fits(Snap())) ==> Fits(Snap()))
    {
      hide Good, Fits;
      var k := 0;
      while k < |mSurfaces|
        invariant k <= |mSurfaces| && mSurfaces == old(mSurfaces) && Snap() == old(Snap()) && Valid()
        invariant forall j :: 0 <= j < k ==> mSurfaces[j].output != output
      {
        if mSurfaces[k].output == output {
          SurfaceOnIs(mSurfaces, output, k);
          DestroySurface(k, how);
          return;
        }
        k := k + 1;
      }
      SurfaceOnIs(mSurfaces, output, k);
    }
  }

  lemma DestroyOne(s: Session)
    requires s.surfaces != []
    ensures LockSession.DestroySurfaces(s) == LockSession.DestroySurfaces(LockSession.DestroySurface(s, 0, Dropped))
    ensures var s' := LockSession.DestroySurface(s, 0, Dropped);
            |s'.surfaces| < |s.surfaces|
            && s' == s.(surfaces := s'.surfaces, buried := s'.buried, running := s'.running, sent := s'.sent,
                        trace := s'.trace)
  {
    ScrSendSame(s, s.surfaces[0].id, Remove, Dropped);
  }

  lemma {:induction false} SurfaceOnIs(xs: seq<LockSurf>, output: nat, k: nat)
    requires k <= |xs| && (forall j :: 0 <= j < k ==> xs[j].output != output) && (k < |xs| ==> xs[k].output == output)
    ensures SurfaceOn(xs, output) == k
  {
    if xs != [] && xs[0].output != output {
      SurfaceOnIs(xs[1..], output, k - 1);
    }
  }

  lemma ConfigureRequests(x: LockSurf, size: Size, hasMemory: bool)
    requires !(x.surface.configured && x.surface.size == size)
    ensures
      var f := x.surface;
      var e := LockSurface.SurfaceConfigure(f, size, hasMemory);
      var oldBlack := if f.black.Some? then [Destroy(Black(f.black.value))] else [];
      Shaped(e.surface) && x.requests + e.requests
          == x.requests + [AckConfigure(size)] + DropSlots(f.slots, SLOTS) + oldBlack + LockSurface.ShowBlack(e.surface)
  {
    hide DropSlots, LockSurface.ShowBlack;
  }

  lemma BlackIs(x: LockSurf)
    ensures var stopped, black := Act(x, DestroyBuffers(x.surface)), Act(x, Stopped(x.surface));
            stopped.surface == black.surface && stopped.id == black.id && stopped.output == black.output
            && black.requests == stopped.requests + if x.surface.configured then LockSurface.ShowBlack(stopped.surface)
                else []
  {
    hide DropSlots, LockSurface.ShowBlack;
    assert LockSurface.ShowBlack(x.surface) == LockSurface.ShowBlack(DestroyBuffers(x.surface).surface) by {
      BlackOnly(x.surface, DestroyBuffers(x.surface).surface);
    }
  }

  lemma BlackOnly(f: Surface, g: Surface)
    requires f.black == g.black
    ensures LockSurface.ShowBlack(f) == LockSurface.ShowBlack(g)
  {
  }

  lemma {:induction false} IndexIs(xs: seq<LockSurf>, id: nat, k: nat)
    requires k <= |xs| && (forall j :: 0 <= j < k ==> xs[j].id != id) && (k < |xs| ==> xs[k].id == id)
    ensures IndexOf(xs, id) == k
  {
    if xs != [] && xs[0].id != id {
      IndexIs(xs[1..], id, k - 1);
    }
  }

  lemma EffectNothing(xs: seq<LockSurf>, k: nat)
    requires k < |xs|
    ensures xs[k := Act(xs[k], Effect(xs[k].surface, [], None))] == xs
  {
    assert xs[k].requests + [] == xs[k].requests;
  }

  // ---------- what the handlers keep ----------

  predicate Usable(o: OutputInfo) {
    o.name != 0 && !o.removed
  }

  lemma CreateCovers(s: Session, o: OutputInfo)
    ensures s.lock.Some? && Usable(o) ==> HasSurfaceOn(CreateSurface(s, o).surfaces, o.id)
    ensures forall output :: HasSurfaceOn(s.surfaces, output) ==> HasSurfaceOn(CreateSurface(s, o).surfaces, output)
    ensures CreateSurface(s, o).lock == s.lock
  {
    var s' := CreateSurface(s, o);
    forall output | HasSurfaceOn(s.surfaces, output)
      ensures HasSurfaceOn(s'.surfaces, output)
    {
      var k :| 0 <= k < |s.surfaces| && s.surfaces[k].output == output;
      assert s'.surfaces[k] == s.surfaces[k];
    }
    if s' != s {
      assert s'.surfaces[|s.surfaces|].output == o.id;
    }
  }

  /** No usable output is left without a lock surface. */
  lemma {:induction false} AllCovered(s: Session, outputs: seq<OutputInfo>)
    requires s.lock.Some?
    ensures CreateAll(s, outputs).lock == s.lock
    ensures forall o :: o in outputs && Usable(o) ==> HasSurfaceOn(CreateAll(s, outputs).surfaces, o.id)
  {
    if outputs != [] {
      AllCovered(s, outputs[..|outputs| - 1]);
      CreateCovers(CreateAll(s, outputs[..|outputs| - 1]), outputs[|outputs| - 1]);
      hide CreateSurface, HasSurfaceOn, Usable;
    }
  }

  function Ended(s: Session): Session
    requires s.lock.Some?
  {
    s.(trace := s.trace + [UnlockAndDestroy(s.lock.value)], lock := None, state := Unlocked)
  }

  lemma UnlockIs(s: Session)
    ensures s.state == Pending ==> LockSession.Unlock(s) == s.(unlockWhenLocked := true)
    ensures s.state == Unlocked || (s.state == Locked && s.lock.None?) ==> LockSession.Unlock(s) == s
    ensures s.state == Locked && s.lock.Some? ==>
              var gone := LockSession.DestroySurfaces(LockSession.StopScreensaver(Ended(s)));
              LockSession.Unlock(s) == gone.(hints := gone.hints + [false])
  {
    hide LockSession.DestroySurfaces, LockSession.StopScreensaver;
  }

  function Asked(s: Session): Session {
    s.(unlockWhenLocked := false, lock := Some(s.nextLock), nextLock := s.nextLock + 1,
       trace := s.trace + [AskLock(s.nextLock)], state := Pending)
  }

  lemma LockKeeps(s: Session, obstacle: bool, outputs: seq<OutputInfo>, loader: bool, sent: Sent)
    requires s.state == Unlocked && Good(s.(sleepPending := false))
    ensures Good(LockSession.DoLock(s, obstacle, outputs, loader, sent))
            && Good(LockSession.StartScreensaver(Asked(s), loader, sent))
    ensures var s' := LockSession.DoLock(s, obstacle, outputs, loader, sent);
            if obstacle then s'.state == Unlocked && !s'.sleepPending
            else s'.state == Pending && forall o :: o in outputs && Usable(o) ==> HasSurfaceOn(s'.surfaces, o.id)
  {
    LockUnlocked(s, obstacle, outputs, loader, sent);
    AskedGood(s);
    StartGood(Asked(s), loader, sent);
    DoLockSleep(s, obstacle, outputs, loader, sent);
    ScreensaverFailedSame(Asked(s).(running := true, sent := []));
    AllCovered(LockSession.StartScreensaver(Asked(s), loader, sent), outputs);
    hide Good, CreateAll, HasSurfaceOn, Usable, LockSession.ScreensaverFailed;
  }

  lemma ReadyToLock(s: Session)
    requires Good(s) && s.state != Locked
    ensures Good(s.(sleepPending := true))
            || (s.state == Unlocked && Good(s.(sleepPending := true).(sleepPending := false)))
  {
    if s.state == Pending {
      SleepWaits(s);
    } else {
      NothingPending(s);
    }
    hide Good;
  }

  lemma SleepIs(s: Session, modifiers: seq<nat>, start: bool, inhibited: bool, obstacle: bool,
                outputs: seq<OutputInfo>, loader: bool, how: Sent)
    ensures start ==> LockSession.Step(s, modifiers, GoingToSleep(obstacle, outputs, loader, how))
                      == LockSession.PrepareForSleep(s, obstacle, outputs, loader, how)
    ensures !start ==> LockSession.Step(s, modifiers, WokeUp(inhibited)) == s.(inhibitor := s.inhibitor || inhibited)
  {
    hide LockSession.PrepareForSleep;
  }

  lemma SleepKeeps(s: Session, modifiers: seq<nat>, e: Event)
    requires Good(s) && (e.GoingToSleep? || e.WokeUp?)
    ensures var s' := LockSession.Step(s, modifiers, e);
            && Good(s') && SleepAfter(s, e, s') && (s'.sleepPending ==> s'.state == Pending && s'.lock.Some?)
            && (e.GoingToSleep? && s'.state == Unlocked ==> e.obstacle && !s'.sleepPending && !s'.inhibitor)
  {
    StepGood(s, modifiers, e);
    StepSleep(s, modifiers, e);
    if e.GoingToSleep? {
      DoLockSleep(s.(sleepPending := true), e.obstacle, e.outputs, e.loader, e.sent);
    }
    hide LockSession.DoLock, Apart, Standings;
  }

  lemma FailedKeeps(s: Session)
    ensures var s' := LockSession.ScreensaverFailed(s);
            && SameLock(s, s') && (Good(s) ==> Good(s')) && (Fits(s) ==> Fits(s'))
            && (s.running ==> forall k :: 0 <= k < |s'.surfaces| ==> s'.surfaces[k].surface.slots == NO_SLOTS)
  {
    ScreensaverFailedSame(s);
    SameLockKeeps(s, LockSession.ScreensaverFailed(s));
    if Fits(s) {
      ScrSendInStep(s, 0, Remove, Broken);
    }
    hide Good, Fits, SameLock, LockSurface.ShowBlack, DropSlots;
  }

  lemma SendKeeps(s: Session, id: nat, m: Down, sent: Sent)
    ensures var s' := LockSession.ScrSend(s, id, m, sent);
            SameLock(s, s') && (Good(s) ==> Good(s')) && (Fits(s) ==> Fits(s'))
  {
    ScrSendSame(s, id, m, sent);
    SameLockKeeps(s, LockSession.ScrSend(s, id, m, sent));
    if Fits(s) {
      ScrSendInStep(s, id, m, sent);
    }
    hide *;
  }

  lemma {:induction false} ReceiveAllKeeps(s: Session, modifiers: seq<nat>, ms: seq<Datagram>)
    ensures var s' := ReceiveAll(s, modifiers, ms);
            SameLock(s, s') && (Good(s) ==> Good(s')) && (Fits(s) ==> Fits(s'))
  {
    if ms == [] {
      SameLockSelf(s);
      hide Good, Fits, SameLock;
    } else {
      var before, m := ms[..|ms| - 1], ms[|ms| - 1];
      ReceiveAllKeeps(s, modifiers, before);
      var s1 := ReceiveAll(s, modifiers, before);
      hide Good, Fits, SameLock, Receive;
      LoaderSaysSame(s1, modifiers, m.id, m.message, m.whole);
      SameLockTwice(s, s1, Receive(s1, modifiers, m.id, m.message, m.whole));
      SameLockKeeps(s1, Receive(s1, modifiers, m.id, m.message, m.whole));
      if Fits(s1) {
        ReceiveInStep(s1, modifiers, m.id, m.message, m.whole);
      }
    }
  }

  lemma ConfigureKeeps(s: Session, modifiers: seq<nat>, k: nat, size: Size, hasMemory: bool, sent: Sent, blurSent: Sent)
    requires Good(s) && k < |s.surfaces|
    ensures var s' := ConfigureSurface(s, k, size, hasMemory, sent, blurSent);
            Good(s') && (hasMemory && Fits(s) ==> Fits(s'))
  {
    var e := SizeGiven(s.surfaces[k].id, size, hasMemory, sent, blurSent);
    OwnIndex(s, k);
    StepGood(s, modifiers, e);
    if hasMemory && Fits(s) {
      SizeGivenInStep(s, k, size, sent, blurSent);
    }
    hide Good, Fits, ConfigureSurface;
  }

  lemma ConfigureIs(s: Session, k: nat, size: Size, hasMemory: bool, sent: Sent, blurSent: Sent)
    requires k < |s.surfaces|
    ensures
      var s' := ConfigureSurface(s, k, size, hasMemory, sent, blurSent);
      var x := s.surfaces[k];
      if x.surface.configured && x.surface.size == size then
        s' == s.(surfaces := s.surfaces[k := x.(requests := x.requests + [AckConfigure(size), Commit])])
      else
        s' == LockSession.ScrTell(
                LockSession.ScrSend(ActOn(s, k, LockSurface.SurfaceConfigure(x.surface, size, hasMemory)), x.id,
                                    Configure(size, x.surface.gen + 1), sent), blurSent)
  {
    hide LockSession.ScrSend, LockSession.ScrTell, DropSlots, LockSurface.ShowBlack;
  }

  lemma OwnIndex(s: Session, k: nat)
    requires Good(s) && k < |s.surfaces|
    ensures IndexOf(s.surfaces, s.surfaces[k].id) == k
  {
    IndexIs(s.surfaces, s.surfaces[k].id, k);
    hide Flags, Standings;
  }

  lemma ImportKeeps(s: Session, modifiers: seq<nat>, k: nat, i: nat)
    requires Good(s) && k < |s.surfaces| && Importing(s.surfaces[k].surface, i)
    ensures var s' := ActOn(s, k, LockSurface.ParamsCreated(s.surfaces[k].surface, i));
            Good(s') && (s.surfaces[k].surface.configured && Fits(s) ==> Fits(s'))
  {
    var e := ImportDone(s.surfaces[k].id, i);
    OwnIndex(s, k);
    StepGood(s, modifiers, e);
    if s.surfaces[k].surface.configured && Fits(s) {
      SurfaceEventInStep(s, modifiers, e);
    }
    hide Good, Fits, ActOn, LockSurface.ParamsCreated, Importing;
  }

  lemma FrameKeeps(s: Session, modifiers: seq<nat>, k: nat, sent: Sent)
    requires Good(s) && k < |s.surfaces| && s.surfaces[k].surface.frameCallback
    ensures var s' := Shell(s, k, LockSurface.FrameDone(s.surfaces[k].surface), sent);
            Good(s') && (Fits(s) ==> Fits(s'))
  {
    var e := FrameDue(s.surfaces[k].id, sent);
    OwnIndex(s, k);
    StepGood(s, modifiers, e);
    if Fits(s) {
      SurfaceEventInStep(s, modifiers, e);
    }
    hide Good, Fits, Shell;
  }

  lemma ReleaseKeeps(s: Session, modifiers: seq<nat>, k: nat, i: nat, sent: Sent)
    requires Good(s) && k < |s.surfaces| && HasBuffer(s.surfaces[k], i)
    ensures var s' := Shell(s, k, LockSurface.BufferRelease(s.surfaces[k].surface, i), sent);
            Good(s') && (Fits(s) ==> Fits(s'))
  {
    var e := BufferFreed(s.surfaces[k].id, i, sent);
    OwnIndex(s, k);
    StepGood(s, modifiers, e);
    if Fits(s) {
      SurfaceEventInStep(s, modifiers, e);
    }
    hide Good, Fits, Shell, Watch;
  }

  lemma DestroyKeeps(s: Session, k: nat, sent: Sent)
    requires k < |s.surfaces|
    ensures var s' := LockSession.DestroySurface(s, k, sent);
            (Good(s) ==> Good(s') && !HasSurfaceOn(s'.surfaces, s.surfaces[k].output)) && (Fits(s) ==> Fits(s'))
  {
    if Good(s) {
      DestroySurfaceKeeps(s, k, sent);
      DestroyUncovers(s, k, sent);
    }
    if Fits(s) {
      DestroySurfaceInStep(s, k, sent);
    }
    hide LockSession.DestroySurface, Fits, HasSurfaceOn, RefereeAll;
  }

  lemma DestroyUncovers(s: Session, k: nat, sent: Sent)
    requires Good(s) && k < |s.surfaces|
    ensures !HasSurfaceOn(LockSession.DestroySurface(s, k, sent).surfaces, s.surfaces[k].output)
  {
    ScrSendSame(s, s.surfaces[k].id, Remove, sent);
    var s1 := LockSession.ScrSend(s, s.surfaces[k].id, Remove, sent);
    var r := Without(s1.surfaces, k);
    assert forall j :: 0 <= j < |r| ==> r[j] == if j < k then s1.surfaces[j] else s1.surfaces[j + 1];
    hide LockSession.ScrSend, Flags, Standings;
  }
}
