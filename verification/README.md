# Verified model of the shell, the screensaver, the portal bridge and the PNG encoder

This project models five parts of the repository in Dafny and proves what they
are for. Code that computes a value is a function with lemmas; code that works by
changing things is a class or a method with loops, proved equal to a function from
the state before to the state after, and the theorems are about runs of those
functions.

**Frame exchange** (`LockSurface`, `FrameProtocol`, `FrameInvariant`, `FrameSteps`,
`FrameShellSteps`, `FrameArrivals`, `FrameSafety`, `FramePump`, `FrameReturn`,
`FrameStall`, `ScreensaverLoader`, `FrameRefinement`, `JointRuns`, `JointExactly`).
Shell, screensaver loader and compositor share three buffers per output over two FIFO
channels. READY and RELEASE carry only a slot number, so the exchange relies on
message order and on sizes. `FrameProtocol` is the step relation for one output; every
message also carries, as history, the generation (the CONFIGURE) it belongs to. Sends
may be delivered, dropped or fail. The loader may draw and the compositor may release
whenever they could. The main results: the loader never draws into a buffer being
shown, exactly for those sequences of sizes in which no usable size returns after a
different one; buffers and frame tokens are accounted for; and, among those sequences,
a run that loses nothing keeps a frame on its way exactly for those in which no usable
size is followed by unusable ones only and then by itself. `ScreensaverLoader` is the
loader's main loop over all outputs. `JointRuns` puts the whole shell, the loader and
what is on the two sockets into one world, and shows that every run of it is, for each
surface, a run of the exchange from the surface's making on (`FrameRefinement` has the
shell's events), so that what is proved of the exchange holds there; `JointExactly`
takes runs of the exchange back to joint runs, so that both exact conditions are exact
there too.

**Session lock** (`LockSession`, `LockInvariant`, `LockSafety`, `Lock`, `Utf8`,
`Password`, `LockGate`). The lock state machine with compositor events, logind, output
hotplug, every lock surface and the screensaver's socket. A referee written from
`ext_session_lock_v1` reads the trace of requests and events and never finds an error;
another reads each surface's requests and finds every commit of the acknowledged size.
The class's handlers keep the invariant and say what it means for their caller.
`LockGate` adds the password checks, which are not tied to the lock that was there
when they began. The password buffer is a byte array that refines a stack of Unicode
scalars.

**Portal bridge** (`Signature`, `Decimal`, `Convert`, `ConvertRoundTrip`,
`Introspection`, `IntrospectionParser`, `IntrospectionXml`, `IntrospectionExact`,
`IntrospectionText`, `Bridge`). Typed D-Bus values to varlink values and back, the
signature splitter, the introspection XML printer and the character-level parser, and
the table of calls in flight. An object is a map whose field order is an arbitrary
function, so results hold for any order.

**PNG encoder** (`Bytes`, `Crc`, `PngFormat`, `PngEncoder`). `PngFormat` is a decoder
written from RFC 2083, RFC 1950 and RFC 1951; the encoder's loops are proved to
produce what it decodes to the same pixels.

**Window manager** (`Desk`, `DeskPartition`, `DeskRuns`, `DeskGeometry`, `DeskHome`,
`DeskCleanup`, `DeskJourney`, `DeskDrags`, `DeskSeats`, `DeskSteady`, `DeskFocus`,
`WindowManager`). Windows between stacks, icons and orphans while outputs come and go;
saved geometry, followed through every step of a manage sequence and over runs; what
seats focus and drag; and the focus order.

Assumptions, in the system's terms:

- The loader of the frame exchange is the one in the repository; for the commits on
  lock surfaces its messages are arbitrary. The compositor releases only buffers it
  was shown, and forgets a buffer when it is destroyed.
- A run is fair (`LockSafety.FairRun`) if black buffers can be allocated and no import
  finishes on a surface that was never configured. The second can only be broken by a
  0 by 0 buffer, which a compositor refuses; `BlackNeedsMemory` and `ImportNeedsSize`
  say exactly when either matters.
- Allocation succeeds in the bridge, and a varlink call without the `more` flag gets
  no continuing reply.
- Window events name live windows, and ids of new windows are fresh. The source does
  not reset the main output when it goes; the model follows the pointer only if it is
  null or live, which is the condition `OpenWindowPlaced` is about.
- `mOutputs` and `mOrphanedWindows` are walked over a snapshot where the source erases
  from the vector it is walking.

Where behaviour surprises, each with the exact condition and a case that shows it:

- A usable size that returns lets the loader draw into a shown buffer (`SafeExactly`,
  `ReturnTears`).
- A usable size that comes back after unusable ones only leaves the screensaver stuck:
  the shell has dropped its buffers, and the loader does not take the size for a new
  one (`PumpsExactly`, `LullGetsStuck`).
- A lock answered only after the system has woken up gives up the inhibitor taken for
  the next sleep (`InhibitorKeptExactly`, `InhibitorLost`).
- A right password opens whichever lock is there when its check is done (`OpensWhich`,
  `OpensAnother`).
- `in` arguments of signals are not printed, though the parser never makes any; a `"`,
  which can be parsed inside single quotes, or a NUL breaks the printed text
  (`RoundTripExactly`, `InsLost`, `QuoteLost`, `NulLost`).
- A dict with a key twice comes back without the earlier entry (`ComesBackExactly`,
  `KeyTwiceLost`).
- A maximized window dragged to an output elsewhere keeps the saved place of the old
  one (`LetGoAway`, `PlaceLost`); one dragged off while it is asked to be fullscreen
  takes the size it happens to have for its own (`ManagedExactly`, `SizeLost`).
- `interacted` and `hovered` are not reset when their window is destroyed, nor checked
  for being minimized (`SeatsInOrder`, `SteadyExactly`, `ClosedWindowFocused`,
  `MinimizedWindowFocused`).
- The main output is not reset when it goes, and a window opened then is listed nowhere
  (`OpenWindowPlaced`, `WindowNowhere`).

## Model

| member | source | states |
|---|---|---|
| FrameSafety.NeverTears | screensaver/loader/main.cpp:569-602 | In every run of shell, loader and compositor in which no usable surface size comes back after another one, the buffer the loader would draw into next is never one the compositor has been shown and has not released; messages to the loader may be dropped at any step. |
| FrameReturn.SafeExactly | screensaver/loader/main.cpp:528-552 | For every sequence of configured sizes: no run over these sizes lets the loader draw into a shown buffer if and only if no usable size returns after a different usable size. |
| FrameReturn.ReturnTears | shell/lock/screensaver.cpp:223-239 | If a usable size does return (A, then B, then A), a run exists in which an old BUFFER and READY pass for new ones and the RELEASE of the old buffer frees a new one that is being shown. |
| FrameReturn.Ambush | shell/lock/screensaver.cpp:201-244 | The steps of that run: an old frame presented and released, its RELEASE overtaking the frame drawn into the new buffer of the same slot. |
| FrameSafety.BuffersAccountedFor | screensaver/loader/main.cpp:627-633 | Each slot of the loader's generation is in at most one of four places (READY on its way, waiting for its import, with the compositor, RELEASE on its way), and in none if it is not busy. |
| FrameSafety.OneFrameAtATime | shell/lock/screensaver.cpp:323-349 | At most one frame token per output (wanted, READY on its way, waiting, frame callback, FRAME on its way), so at most one buffer is ever ready_pending. |
| FramePump.NeverStalls | screensaver/loader/main.cpp:569-602 | In a run without a returning size that has lost nothing and in which the loader has the buffers of the very last CONFIGURE, there is exactly one frame token, and a buffer is busy exactly if it is in exactly one of the four places. `PumpsExactly` says which sizes lead there. |
| FrameStall.PumpsExactly | screensaver/loader/main.cpp:528-552 | For every sequence of sizes no usable one of which returns after another: every run that loses nothing has, once the loader has heard all sizes so far and the last is usable, exactly one frame token, if and only if no usable size is followed by unusable ones only and then by itself. Where one is, a run that loses nothing gets stuck. |
| FrameStall.LullGetsStuck | shell/lock/lock.cpp:416-444 | Such a run, for the sizes 1 by 1, 0 by 0 and 1 by 1: the shell has dropped its buffers, the loader takes neither of the later sizes for news, both channels are empty and no frame token is left. |
| FrameStall.StuckStays | screensaver/loader/main.cpp:569-602 | A stuck exchange stays as it is, whatever happens, until a new size is configured or the surface or the loader is gone. |
| FrameArrivals.SizeTellsGeneration | shell/lock/screensaver.cpp:246-251 | With no returning size, a BUFFER of the surface's size is of the loader's current generation, and nothing older is behind it on the channel. |
| FramePump.CurrentReadyFindsSlot | shell/lock/screensaver.cpp:223-239 | In a run without a returning size that has lost nothing and in which the loader has the buffers of the very last CONFIGURE, a READY for one of them finds its slot filled, because its BUFFER came before it. One that was sent before the shell went on to another size need not. |
| FrameSteps.LoaderReceivesKeeps | screensaver/loader/main.cpp:604-635 | Every message the loader can receive keeps the order of generations, the places of buffers and the single token. |
| FrameSteps.DrawnAccount | screensaver/loader/main.cpp:569-602 | Drawing moves the token from wanted to READY and a free buffer to busy. |
| FrameShellSteps.ConfiguredKeeps | shell/lock/lock.cpp:416-444 | A new size drops every buffer of the old one and keeps the invariant, whether its CONFIGURE is delivered, dropped or fails. |
| FrameShellSteps.FrameShownKeeps | shell/lock/screensaver.cpp:340-349 | A frame callback turns into a FRAME, delivered or not, without a second token. |
| FrameShellSteps.ReleasedKeeps | shell/lock/screensaver.cpp:351-359 | A released buffer turns into a RELEASE of its slot, never beside another claim on the slot. |
| FrameArrivals.ShellReceivesKeeps | shell/lock/screensaver.cpp:201-298 | Any message of the loader's keeps the invariant: stale ones are ignored, insane ones end the screensaver. |
| FrameArrivals.ImportedKeeps | shell/lock/screensaver.cpp:300-321 | A finished import shows a waiting frame, and keeps the invariant. |
| FrameShellSteps.StopKeeps | shell/lock/screensaver.cpp:71-95 | Stopping lets go of every buffer of the surface and of the frame callback. |
| ScreensaverLoader.Loader.FindOutput | screensaver/loader/main.cpp:519-526 | The output with the id, or none. |
| ScreensaverLoader.Loader.OutputConfigure | screensaver/loader/main.cpp:528-552 | What the frame exchange has a CONFIGURE do is done to the named output and to no other, three BUFFER messages included. |
| ScreensaverLoader.Loader.OutputRemove | screensaver/loader/main.cpp:554-567 | The named output goes, all others stay. |
| ScreensaverLoader.Loader.OutputDraw | screensaver/loader/main.cpp:569-602 | Draws into the first free buffer and sends one READY, or waits if all are busy; other outputs untouched. |
| ScreensaverLoader.Loader.HandleMsg | screensaver/loader/main.cpp:604-635 | Each message changes the output it names as the exchange says, and no other. |
| ScreensaverLoader.Loader.TakeTurn | screensaver/loader/main.cpp:661-687 | A turn of the main loop over any batch of messages is, for every output at once, its own messages in order and then a frame if one is wanted. |
| JointRuns.JointRunLinked | shell/lock/screensaver.cpp:97-359 | In every joint run of the whole shell (all lock surfaces, any number of locks, one socket each way), the loader with all its outputs and the compositor, the world is to every surface there is a reachable state of that surface's own frame exchange: from the making of the surface on, each deed of the joint world is a few of its steps. |
| JointRuns.JointlySafe | screensaver/loader/main.cpp:569-602 | Hence in every joint run, for every surface whose usable sizes did not come back, the loader is not about to draw into a buffer the compositor has been shown, each buffer is in one place at most, and one frame at most is on its way. |
| JointExactly.JointlySafeExactly | shell/lock/screensaver.cpp:223-239 | For every sequence of sizes: no joint run in which a surface is given these lets the loader draw into a buffer of it being shown, if and only if no usable size returns after a different usable size. |
| JointExactly.JointlyPumpsExactly | screensaver/loader/main.cpp:528-552 | For every sequence of sizes no usable one of which returns after another: every joint run that loses no message about a surface given these has, once the loader has heard them, exactly one frame token for it, if and only if no usable size is followed by unusable ones only and then by itself; where one is, a joint run that loses nothing about the surface leaves it stuck. |
| JointRuns.TurnIsDeeds | screensaver/loader/main.cpp:661-687 | A turn of the loader's main loop over a batch of messages is a stretch of a joint run: it hears them one by one and then each output draws once, in any order, and every output ends as TakeTurn says. |
| FrameRefinement.EventIsSteps | shell/lock/screensaver.cpp:97-359 | Every event of the whole shell, whichever surface it is of, is at most two steps of each live surface's own frame exchange, in any state of the channels, and keeps shell and exchange agreeing on surface, sizes, shown buffers and messages on their way. |
| FrameRefinement.SendOtherAgrees | shell/lock/screensaver.cpp:97-107 | A send for one surface leaves the exchange of every other as it was, or ends it if the socket is broken. |
| LockSurface.ConfigureInStep | shell/lock/lock.cpp:416-444 | After a size is acknowledged, the surface shows and keeps only buffers of exactly that size. |
| LockSurface.HandleInStep | shell/lock/screensaver.cpp:201-298 | No message of the loader's, sane or not, makes the shell commit a buffer of another size or hold one. |
| LockSurface.ParamsCreatedInStep | shell/lock/screensaver.cpp:300-314 | A finished import commits only a buffer of the acknowledged size. |
| LockSurface.StoppedInStep | shell/lock/screensaver.cpp:84-95 | When the loader fails, every surface that has a size turns black at that size. |
| LockSurface.JudgeDrops | shell/lock/screensaver.cpp:139-157 | Letting buffers go commits nothing. |
| LockSafety.CommitsFit | shell/lock/lock.cpp:407-444 | Over every fair run, each commit on each lock surface, those since destroyed included, comes after its first ack and is of a buffer of exactly the last acknowledged size. |
| LockSafety.BlackNeedsMemory | shell/lock/lock.cpp:387-405 | A new size given twice ends in a commit that does not fit if and only if there was no memory for the black buffer. |
| LockSafety.ImportNeedsSize | shell/lock/screensaver.cpp:300-337 | An import finishing before the surface was ever configured commits too early if and only if its READY has already come. |
| LockSafety.RequestsInPlace | shell/lock/lock.cpp:205-313 | In every run no request is out of place under ext-session-lock-v1: unlock_and_destroy only after `locked` on that object, destroy only when `locked` never came, one lock surface per output and only while the lock is alive. |
| LockSafety.LockAndSurfaces | shell/lock/lock.cpp:315-377 | In every run mLock is set exactly when the state is not UNLOCKED, surfaces and screensaver exist only then, one per output and with distinct ids, and mUnlockWhenLocked implies PENDING. |
| LockSafety.LockedMeansLocked | shell/lock/lock.cpp:280-313 | The state is LOCKED exactly if the compositor has sent `locked` for the lock object the shell has. |
| LockSafety.HintIsState | shell/lock/lock.cpp:249-313 | The last locked hint sent to logind is whether the state is LOCKED. |
| LockSafety.InhibitorGivenUp | shell/lock/lock.cpp:272-278 | An event gives up a held sleep inhibitor if and only if the system is going to sleep and the session is locked or cannot be locked, or a sleep is pending and the compositor answers. |
| LockSafety.SleepWaitsForAnswer | shell/lock/lock.cpp:98-113 | A pending sleep implies PENDING with a lock object alive, and any answer of the compositor's settles it. |
| LockSafety.InhibitorKeptExactly | shell/lock/lock.cpp:101-113 | After waking up, the inhibitor is kept over every run until the next sleep if and only if no sleep was pending at that moment. |
| LockSafety.InhibitorLost | shell/lock/lock.cpp:101-113 | A run in which it is not: to sleep before the compositor has answered, awake again, and the answer then gives up the new inhibitor. |
| LockGate.OpensWhich | shell/lock/lock.cpp:146-161 | In every run of lock and password checks, a password found right opens the lock it was typed for if that is still there; otherwise it does nothing, or opens (or marks to be opened) the lock there is, that exactly if one is there and another has been asked for since. |
| LockGate.OpensAnother | shell/lock/lock.cpp:292-313 | A run in which the password of a lock the compositor ended opens the next one. |
| LockInvariant.DestroySurfacesKeeps | shell/lock/lock.cpp:351-383 | Destroying all surfaces takes each output's lock surface away once. |
| LockInvariant.StepGood | shell/lock/lock.cpp:98-471 | Every event keeps the invariant of the lock, its surfaces, the hints and the protocol's own view. |
| Lock.TCCLock.constructor | shell/lock/lock.cpp:16-39 | Starts unlocked, without surfaces or a screensaver; Valid (the invariant of StepGood) holds, which the handlers of events below keep; what they call on the way (DestroySurfaces, StopScreensaver, ScrDestroyBuffers, ScrHandle, ScrHandleBuffer) says nothing of it. |
| Lock.TCCLock.DoLock | shell/lock/lock.cpp:205-247 | Valid before, or but for a sleep just pending; Valid after. Unless something stands in the way an unlocked session is PENDING then, and every usable output has a lock surface; if something does, no sleep waits. |
| Lock.TCCLock.Unlock | shell/lock/lock.cpp:249-270 | Keeps Valid. A locked session is let go of altogether: no lock object, surface or screensaver, the protocol back at its start, one hint that says unlocked; a pending one is only marked to be unlocked. |
| Lock.TCCLock.PrepareForSleep | shell/lock/lock.cpp:98-113 | Keeps Valid. The inhibitor and the pending sleep become exactly what SleepAfter says of the event; a sleep waits only while PENDING, and going to sleep leaves the session unlocked only if it cannot be locked, with nothing waiting. |
| Lock.TCCLock.LockLocked | shell/lock/lock.cpp:280-290 | Keeps Valid. No sleep waits, the inhibitor goes exactly if one did; an unlock asked for meanwhile lets the session go with hints locked and unlocked, and otherwise it is LOCKED with its lock and surfaces as they were. |
| Lock.TCCLock.LockFinished | shell/lock/lock.cpp:292-313 | Keeps Valid. The session is let go of whatever its state, with an unlocked hint exactly if it was locked, and no sleep waits. |
| Lock.TCCLock.CreateSurface | shell/lock/lock.cpp:315-349 | Keeps Valid. While there is a lock, a usable output has a lock surface afterwards, and still only one. |
| Lock.TCCLock.DestroySurface | shell/lock/lock.cpp:351-377 | Keeps Valid: no surface is left on the output, and what its record of requests showed still fits. |
| Lock.TCCLock.DestroySurfaces | shell/lock/lock.cpp:379-383 | No surface is left, each destroyed as DestroySurface destroys one, the first first. |
| Lock.TCCLock.OutputRemoved | shell/lock/lock.cpp:464-471 | Keeps Valid. No lock surface is left on the output. |
| Lock.TCCLock.SurfaceConfigure | shell/lock/lock.cpp:416-458 | Keeps Valid; given memory, every commit so far, the new one included, is of the size last acknowledged. |
| Lock.TCCLock.ScrDestroyBuffers | shell/lock/screensaver.cpp:139-157 | All slots of a surface emptied, in order. |
| Lock.TCCLock.StopScreensaver | shell/lock/screensaver.cpp:71-82 | No screensaver, no buffers on any surface. |
| Lock.TCCLock.ScreensaverFailed | shell/lock/screensaver.cpp:84-95 | The lock is as it was, no surface has a buffer any more, and the black that is committed fits. |
| Lock.TCCLock.SurfaceFromId | shell/lock/screensaver.cpp:109-116 | The surface with the id, or none. |
| Lock.TCCLock.ScrHandle | shell/lock/screensaver.cpp:201-244 | Accepts exactly the messages a sane loader sends, and does what they ask of one surface. |
| Lock.TCCLock.ScrHandleBuffer | shell/lock/screensaver.cpp:246-298 | A buffer of another size is ignored, one the compositor would reject is refused, any other replaces the slot and is imported. |
| Lock.TCCLock.ScrProcess | shell/lock/screensaver.cpp:159-198 | Messages are handled in order until the screensaver is gone; whatever they are, the lock stays as it was and every commit fits. |
| Lock.TCCLock.ParamsCreated | shell/lock/screensaver.cpp:300-314 | Keeps Valid; on a configured surface the commit of a frame that was waiting is of the acknowledged size. |
| Password.PasswordBox.HandleKey | shell/lock/input.cpp:351-399 | While locked, with a keymap and no check under way, a key does to the stack of typed characters what it means: push, pop one, clear or submit; otherwise nothing. What PAM is given is what was typed, all of it. |
| Password.PasswordBox.Backspace | shell/lock/input.cpp:370-378 | Takes exactly one character off, however many bytes it has. |
| Password.PasswordBox.DropLast | shell/lock/input.cpp:370-378 | Erases bytes from the end down to and including the first that is not a continuation. |
| Password.PasswordBox.Type | shell/lock/input.cpp:382-392 | Pushes text that is no control character and leaves the length below 1024; ignores any other. |
| Password.PasswordBox.Submit | shell/lock/input.cpp:401-409 | Hands a non-empty password to PAM, and clears it. |
| Password.PasswordBox.Clear | shell/lock/lock.cpp:473-476 | All bytes zero, nothing typed. |
| Password.PasswordBox.Stars | shell/lock/render.cpp:227-230 | One star for each character, 48 at most. |
| Utf8.StartsCountScalars | shell/lock/render.cpp:228-229 | Counting the bytes that are no continuation counts the characters of any UTF-8 text. |
| Utf8.EncodeAllInjective | shell/lock/input.cpp:364-407 | The bytes determine the characters (section 3 of RFC 3629). |
| Password.LastCharacter | shell/lock/input.cpp:370-378 | The last byte that is no continuation starts the last character. |
| Password.TCCPamAuth.Start | shell/lock/pam.cpp:56-67 | A busy conversation is left alone; otherwise the password is copied, cut below 1024 bytes and ended with NUL, so that for shorter ones without NUL PAM is answered exactly it. |
| Password.TCCPamAuth.Finish | shell/lock/pam.cpp:82-85 | The worker wipes the copy before it is done. |
| Password.TCCPamAuth.PollResult | shell/lock/pam.cpp:93-107 | Gives a result exactly if a conversation is done, and frees it for the next. |
| Password.ReportedOnce | shell/lock/pam.cpp:56-107 | Over every run, every conversation has one result, and each result is reported once and in order. |
| ConvertRoundTrip.ComesBackExactly | portal/bridge/convert.cpp:208-467 | For every value of every complete type without file descriptors or double-typed keys, to_dbus on from_dbus's result with the value's signature succeeds and has the type; it is the value with the entries of each dict permuted if and only if no dict in the value has a key twice. |
| ConvertRoundTrip.KeyTwiceLost | portal/bridge/convert.cpp:208-467 | A dict of type a{sy} with one key twice comes back with the later of the two entries only. |
| ConvertRoundTrip.RoundTrip | portal/bridge/convert.cpp:208-467 | What comes back has no key twice, and the meaning of the value, in which the last entry of a key counts. |
| ConvertRoundTrip.SameMeaning | portal/bridge/convert.cpp:267-296 | Values with distinct keys and one meaning are permutations of each other, dict by dict. |
| ConvertRoundTrip.DictBack | portal/bridge/convert.cpp:409-440 | Whatever order the fields of an object are enumerated in, the dict they came from is rebuilt, with distinct keys. |
| ConvertRoundTrip.MeaningOfDistinct | portal/bridge/convert.cpp:267-296 | With distinct keys, the meaning of a dict has exactly its entries. |
| Convert.IntRoundTrip | portal/bridge/convert.cpp:104-165 | Every integer of every type comes back through 64 signed bits, unsigned 64-bit ones by wrapping. |
| Convert.KeyRoundTrip | portal/bridge/convert.cpp:168-206 | Every string-like, boolean and integer key comes back from its text. |
| Convert.AppendedFits | portal/bridge/convert.cpp:140-165 | Any 64-bit integer is cut to one of the type asked for. |
| Decimal.ReadBack | portal/bridge/convert.cpp:168-206 | Printing an integer and parsing it back with strtoll gives it back. |
| Convert.FromDbusIter | portal/bridge/convert.cpp:208-309 | The walk over containers computes the varlink value of a D-Bus value. |
| Convert.ToDbusIter | portal/bridge/convert.cpp:351-467 | The walk over a varlink value computes the D-Bus value for a signature, or fails. |
| Convert.ToMembersIter | portal/bridge/convert.cpp:394-409 | Struct members by their index, each by its own type. |
| Convert.ToEntriesIter | portal/bridge/convert.cpp:411-440 | Dict entries from the fields, until one fails. |
| Signature.LengthOfSig | portal/bridge/convert.cpp:68-83 | complete_type_length of a printed type followed by anything is that type's length. |
| Signature.SplitSigs | portal/bridge/convert.cpp:85-95 | split on concatenated signatures gives them back. |
| Signature.SplitAnything | portal/bridge/convert.cpp:85-95 | On any string at all, split takes complete types off the front until none is left. |
| Signature.LengthIsLocal | portal/bridge/convert.cpp:68-83 | The length found does not depend on what follows. |
| Signature.CompleteTypeLength | portal/bridge/convert.cpp:68-83 | The pointer-advancing loop ends on every string and computes the length of the first complete type, 0 if there is none. |
| Signature.SplitSignature | portal/bridge/convert.cpp:85-95 | The splitting loop computes the split. |
| Bridge.ExactlyOneReply | portal/bridge/bridge.cpp:150-524 | In every reachable state each handled call has one reply sent or one varlink call owing it, never both and never two; nothing else is replied to. |
| Bridge.FinishedMeansReplied | portal/bridge/bridge.cpp:506-524 | The dispatch that finds a call finished or its connection closed leaves its reply sent. |
| Bridge.PolledAligned | portal/bridge/bridge.cpp:497-512 | The i-th polled descriptor belongs to the i-th call when the events are dispatched. |
| Bridge.DispatchAccount | portal/bridge/bridge.cpp:506-524 | A dispatch neither loses nor duplicates a reply. |
| Bridge.TCCPortalBridge.Filter | portal/bridge/bridge.cpp:456-495 | Handles exactly the calls under the portal path, by answering or by forwarding them. |
| Bridge.TCCPortalBridge.Lookup | portal/bridge/bridge.cpp:484-492 | The first method of that name of an interface of that name; a call that names no interface finds none. |
| Bridge.TCCPortalBridge.ForwardCall | portal/bridge/bridge.cpp:185-251 | Forwards a call whose arguments match the method's, refuses any other. |
| Bridge.TCCPortalBridge.Properties | portal/bridge/bridge.cpp:253-401 | Get, GetAll and Set answered or forwarded as the introspection data allow. |
| Bridge.TCCPortalBridge.SubscribeTo | portal/bridge/bridge.cpp:403-454 | A subscription is a call without a message to reply to. |
| Bridge.TCCPortalBridge.AddPollfds | portal/bridge/bridge.cpp:497-504 | One descriptor for each call, in order. |
| Bridge.TCCPortalBridge.ProcessEvents | portal/bridge/bridge.cpp:229-249 | Each reply is answered, and the last one marks the call as done. |
| Bridge.TCCPortalBridge.Settle | portal/bridge/bridge.cpp:514-523 | A finished call goes, and on_lost answers it unless it was answered. |
| Bridge.TCCPortalBridge.Sweep | portal/bridge/bridge.cpp:514-523 | The calls that remain are those still waiting, in order. |
| Bridge.TCCPortalBridge.DispatchAll | portal/bridge/bridge.cpp:506-524 | Deliveries to the calls polled, then the sweep. |
| IntrospectionText.RoundTripExactly | portal/bridge/introspection.cpp:21-50 | For every list of interfaces: parsing what is printed, up to its first NUL, gives exactly them back if and only if no string in them has a `"` or a NUL and no signal an `in` argument. |
| IntrospectionText.ParsedComesBack | portal/bridge/introspection.cpp:110-168 | For every text: what is parsed from it, up to its first NUL, comes back from being printed if and only if no string in it has a `"`. |
| IntrospectionText.SignalsHaveNoIns | portal/bridge/introspection.hpp:14-18 | No text makes the parser give a signal `in` arguments. |
| IntrospectionText.EmptiedComesBack | portal/bridge/introspection.cpp:21-50 | With no `"` and no NUL in what is printed, what comes back is everything but the `in` arguments of signals. |
| IntrospectionExact.PrintedExactly | portal/bridge/introspection.cpp:21-50 | The same for a text given with its length: what is printed is parsed back if and only if no string has a `"` and no signal an `in` argument. |
| IntrospectionExact.ParseIs | portal/bridge/introspection.cpp:110-168 | Whatever is true of the empty string and of each quoted part of a text is true of every string parsed from it. |
| IntrospectionExact.AllPass | portal/bridge/introspection.cpp:77-106 | In a printed text that is to give back all its strings, the parser is past the closing quote of each in a start tag again with nothing recorded that has a `"`, whichever strings are quoted within others. |
| IntrospectionText.InsLost | portal/bridge/introspection.cpp:21-50 | An interface whose signal loses its `in` argument. |
| IntrospectionText.NulLost | portal/bridge/introspection.cpp:110-168 | An interface with a NUL in its name does not come back. |
| IntrospectionText.QuoteLost | portal/bridge/introspection.cpp:77-106 | A text with `"` inside single quotes whose interface is parsed but does not come back. |
| IntrospectionXml.ParsePrinted | portal/bridge/introspection.cpp:21-50 | Parsing all of the concatenation of printed interfaces without `"` or signals' `in` arguments appends exactly them: methods, signals, properties, argument directions and order. |
| IntrospectionXml.ReadInterface | portal/bridge/introspection.cpp:110-168 | Reading one printed interface, from any state between interfaces and before any text, adds that interface. |
| IntrospectionXml.PrintInterface | portal/bridge/introspection.cpp:31-50 | to_xml, appending piece by piece. |
| IntrospectionParser.ParseXml | portal/bridge/introspection.cpp:110-168 | The parser ends on every text, never looks past its first NUL or its end, and computes the specified parse of what is before. |
| IntrospectionParser.ParseOneTag | portal/bridge/introspection.cpp:117-164 | One turn of the loop, which always goes forward. |
| IntrospectionParser.Parser.SkipPast | portal/bridge/introspection.cpp:56-62 | Past the first occurrence, or nowhere. |
| IntrospectionParser.Parser.Name | portal/bridge/introspection.cpp:69-74 | The longest name at the cursor. |
| IntrospectionParser.Parser.Attributes | portal/bridge/introspection.cpp:77-106 | The attributes up to the end of the tag, a later one of a name winning, or failure. |
| IntrospectionParser.Parser.NextAttribute | portal/bridge/introspection.cpp:80-97 | The cursor is at most one past the NUL when an attribute fails, and is not used after that. |
| Crc.CrcTable.Crc32 | snip/clipboard.cpp:23-39 | Equals the bit-serial CRC of section 3.4 of RFC 2083 on every byte string, whether or not the table was filled before. |
| Crc.CrcTable.Fill | snip/clipboard.cpp:24-33 | Fills the table, entry by entry, with eight steps of the register. |
| Crc.StepsLinear | snip/clipboard.cpp:28-31 | Any number of register steps is linear over exclusive or. |
| Crc.TableStep | snip/clipboard.cpp:35-37 | A table look-up and a shift are eight bit steps with a data byte. |
| PngEncoder.EncodePng | snip/clipboard.cpp:52-96 | A decoder written from RFC 2083, 1950 and 1951 gives back width, height and the red, green and blue of every pixel. |
| PngEncoder.DecodedPixels | snip/clipboard.cpp:52-96 | The same of the encoder's output as a function. |
| PngEncoder.InflateBlocks | snip/clipboard.cpp:65-77 | Stored blocks inflate to the data, and only the last is final (section 3.2.4 of RFC 1951). |
| PngEncoder.UnzlibZlib | snip/clipboard.cpp:66-83 | Header, blocks and Adler-32 are what section 2.2 of RFC 1950 says of the data. |
| PngEncoder.ReadChunk | snip/clipboard.cpp:41-48 | A chunk is read back with its type, data and CRC (sections 3.2 and 3.4 of RFC 2083). |
| PngEncoder.ReadRowsOfRows | snip/clipboard.cpp:54-63 | Rows with filter type None unfilter to the pixels. |
| PngEncoder.PutChunk | snip/clipboard.cpp:41-48 | Length, type, data and CRC are appended. |
| PngEncoder.Compress | snip/clipboard.cpp:65-83 | The zlib stream of the raw bytes. |
| PngEncoder.AdlerSums | snip/clipboard.cpp:78-82 | The two running sums are those of Adler-32. |
| Bytes.U32RoundTrip | snip/clipboard.cpp:16-21 | A number written most significant byte first is read back, cut to 32 bits. |
| Bytes.ByteVector.PutU32 | snip/clipboard.cpp:16-21 | Four bytes are appended. |
| DeskRuns.EachWindowOnce | shell/client/windowmanagement.cpp:36-119 | In every run in which the main output is null or still there whenever a window opens, each live window is listed exactly once, among an output's minimized windows exactly if it is minimized, or with the orphans. |
| DeskRuns.OpenWindowPlaced | shell/client/windowmanagement.cpp:150-171 | A new window is listed exactly once if and only if the main output is null or still there. |
| DeskRuns.WindowNowhere | shell/client/windowmanagement.cpp:150-171 | A run in which the main output goes and the window opened next is listed nowhere. |
| DeskRuns.OnlyClosedGo | shell/client/windowmanagement.cpp:629-661 | Windows are destroyed in manage sequences only, and only if closed. |
| DeskRuns.NoneWaitAfterManaging | shell/client/windowmanagement.cpp:494-506 | After a manage sequence no window is an orphan while there is an output that is not removed. |
| DeskRuns.ManageStartKeeps | shell/client/windowmanagement.cpp:36-119 | A whole manage sequence loses no open window and files each where it belongs. |
| DeskPartition.MoveKeeps | shell/client/windowmanagement.cpp:544-557 | Moving a window takes it off the one list it is on and puts it on one. |
| DeskPartition.OutputMaybeDestroyKeeps | shell/client/windowmanagement.cpp:457-492 | The windows of an output that goes are handed over, or orphaned, each once. |
| DeskPartition.AdoptOrphansKeeps | shell/client/windowmanagement.cpp:494-506 | Adoption files every orphan, and none is left unless all outputs are removed. |
| DeskPartition.MinimizeKeeps | shell/client/windowmanagement.cpp:729-752 | Minimizing and restoring moves a window between the two lists of its output. |
| DeskPartition.MaybeDestroyKeeps | shell/client/windowmanagement.cpp:629-661 | A closed window is on no list anymore. |
| DeskPartition.FocusKeeps | shell/client/windowmanagement.cpp:893-917 | Focusing reorders a stack and moves no window. |
| DeskJourney.ComesBack | shell/client/windowmanagement.cpp:672-727 | In every run: a floating window with a size that a manage sequence maximizes or makes fullscreen is, when a later manage sequence makes it float again, asked to have its old size and at its old place relative to the output it is then on, or in that output's corner if it was an orphan meanwhile; whatever happens in between, drags, fullscreen moves, minimizing and outputs that come and go included, as long as each event is Undisturbed. |
| DeskJourney.ManagingSpot | shell/client/windowmanagement.cpp:36-119 | A manage sequence leaves a window that is on its way with its home, or brings it home. |
| DeskJourney.ManagedExactly | shell/client/windowmanagement.cpp:783-823 | A window maximized or fullscreen keeps its home through its turn to be managed if and only if it is not dragged off while maximized and made fullscreen at once, with a size that is not the saved one. |
| DeskDrags.SizeLost | shell/client/windowmanagement.cpp:783-823 | A run in which it is: maximized at 50 by 40, a window that has filled its output of 100 by 100 is dragged off and made fullscreen at once, and is to go back to 100 by 100. |
| DeskGeometry.LetGoAway | shell/client/windowmanagement.cpp:591-597 | Let go of after a drag, a maximized or fullscreen window keeps its saved place relative to its output if and only if its middle is on no output, or on one with its own output's corner. |
| DeskDrags.PlaceLost | shell/client/windowmanagement.cpp:1190-1199 | A run in which it does not: maximized on the left one of two outputs, dragged to the right one and let go of, a window is listed there, and goes back to the left output when it is unmaximized. |
| DeskDrags.DraggedUnsettled | shell/client/windowmanagement.cpp:591-597 | In that run the window has a home just before it is let go of, and does not settle. |
| DeskJourney.OutputMovedExactly | shell/client/windowmanagement.cpp:353-358 | When its output moves, a saved place relative to it is kept if and only if the corner stays. |
| DeskCleanup.CleanupGoes | shell/client/windowmanagement.cpp:36-92 | Outputs that go, orphans adopted, changed geometry, queued minimizing and destroyed windows leave the home of a window that is not closed, but that an orphan's becomes the corner of the output that adopts it. |
| DeskSeats.SeatsInOrder | shell/client/windowmanagement.cpp:1141-1240 | In every run in which each manage sequence is fine, no seat focuses a window that is minimized or destroyed or drags one that is destroyed; and after one more event this holds if and only if that is fine: what each seat is about to focus is there and not minimized, or FOCUS_NEXT follows, and what it is about to drag is there. |
| DeskSteady.SteadyExactly | shell/client/windowmanagement.cpp:36-119 | The same from what there is to be seen before a manage sequence: with no window new only to be minimized, the seats are in order after it if each window a seat has interacted with is there, not closed and not to be minimized (by its icon, its client or its nav button), and each it hovers with a move or resize pressed is there and not closed; and with no key or button pressed only then. |
| DeskSteady.Before | shell/client/windowmanagement.cpp:36-119 | When the seats are managed, the windows there are exactly those that were not closed, each minimized exactly if its flags before the sequence said so, or, without an output to be on, if it was; and a seat that had interacted with nothing has at most turned to a window that was new and not minimized. |
| DeskSteady.SteadyRunsOk | shell/client/windowmanagement.cpp:1141-1240 | Over every run whose manage sequences begin so, no seat focuses a window that is minimized or destroyed or drags one that is destroyed. |
| DeskSeats.SeatManageOk | shell/client/windowmanagement.cpp:1174-1240 | One turn of a seat: the same, if and only if, and no other seat changes. |
| DeskSeats.ClosedWindowFocused | shell/client/windowmanagement.cpp:634-649 | A run in which a window clicked on and closed is destroyed, and focused. |
| DeskSeats.MinimizedWindowFocused | shell/client/windowmanagement.cpp:772-777 | A run in which a window minimized as it opens has the focus. |
| DeskGeometry.OutputGoneAway | shell/client/windowmanagement.cpp:457-487 | An output that goes takes the saved place along to the output that gets the window. |
| DeskGeometry.SetStateBack | shell/client/windowmanagement.cpp:718-721 | Returning to floating restores the saved place and proposes the saved size. |
| DeskGeometry.TransferSaves | shell/client/windowmanagement.cpp:562-573 | A transfer between known outputs keeps the saved place relative to the output. |
| DeskGeometry.TransferReachable | shell/client/windowmanagement.cpp:575-587 | A floating window keeps its place relative to the output where that is on the new output, and always has its title bar reachable on one that is large enough. |
| DeskGeometry.CenteredEvenly | shell/client/windowmanagement.cpp:838-847 | A centered window has the same room on both sides, borders and a rounded pixel on each side aside. |
| DeskGeometry.LastOutputComesBack | shell/client/windowmanagement.cpp:457-506 | Removing the last output and adding one gives back both lists of windows, in their order. |
| DeskGeometry.AdoptOrder | shell/client/windowmanagement.cpp:494-506 | Orphans are adopted in order, stacked or minimized as they are. |
| DeskFocus.GoesAround | shell/client/windowmanagement.cpp:1092-1099 | With the focused window on top of n, press k of FOCUS_NEXT focuses the k-th from the bottom, each window once, and n presses restore everything. |
| DeskFocus.PressIs | shell/client/windowmanagement.cpp:1174-1188 | One press rotates the stack by one and keeps the focused window on top. |
| WindowManager.TCCClient.RiverWmManageStart | shell/client/windowmanagement.cpp:36-119 | Keeps Valid (each window listed once, where it is minimized or not): only closed windows go, none waits for an output while there is one, and the seats are in order exactly if AllFine says so. |
| WindowManager.TCCClient.DestroyOutputs | shell/client/windowmanagement.cpp:43-49 | Removed outputs go, over a snapshot of the list. |
| WindowManager.TCCClient.RefillOutputs | shell/client/windowmanagement.cpp:54-64 | Maximized and fullscreen windows fill an output that changed. |
| WindowManager.TCCClient.TidyWindows | shell/client/windowmanagement.cpp:66-86 | Queued minimizing, and closed windows destroyed. |
| WindowManager.TCCClient.OutputOf | shell/client/windowmanagement.cpp:508-518 | The first output that lists the window. |
| WindowManager.TCCClient.OutputAt | shell/client/windowmanagement.cpp:520-527 | The first output there that is not removed. |
| WindowManager.TCCClient.OutputUnderPointer | shell/client/windowmanagement.cpp:529-542 | The output under the first seat's pointer, or else the first that is not removed. |
| WindowManager.TCCClient.WindowMoveToOutput | shell/client/windowmanagement.cpp:544-557 | Keeps Valid; afterwards the window is listed on that output and on no other. |
| WindowManager.TCCClient.WindowTransfer | shell/client/windowmanagement.cpp:562-587 | Between known outputs the saved place relative to the output stays the same; a floating window ends with its title bar on an output that is large enough. |
| WindowManager.TCCClient.OutputMaybeDestroy | shell/client/windowmanagement.cpp:457-492 | Keeps Valid: each window of a removed output is handed over or orphaned once, and none is lost. |
| WindowManager.TCCClient.OutputAdoptOrphans | shell/client/windowmanagement.cpp:494-506 | Keeps Valid; no orphan is left unless all outputs are removed. |
| WindowManager.TCCClient.WindowUpdateOutput | shell/client/windowmanagement.cpp:591-597 | Keeps Valid; a maximized or fullscreen window keeps its home exactly if it settles. |
| WindowManager.TCCClient.WindowSetState | shell/client/windowmanagement.cpp:672-727 | Keeps Valid. Maximized or fullscreen, the window has its home noted or kept, on another output too; back to floating it is at home and asked to have its old size. |
| WindowManager.TCCClient.FrameSetState | shell/client/windowmanagement.cpp:672-727 | What is saved is the place and size relative to the output the window is then on; what is restored is what was saved. |
| WindowManager.TCCClient.WindowMinimize | shell/client/windowmanagement.cpp:729-752 | Keeps Valid, and the seats in order: none focuses the window once it is minimized. |
| WindowManager.TCCClient.WindowMaybeDestroy | shell/client/windowmanagement.cpp:629-661 | Keeps Valid, and the seats in order; the window goes exactly if it is closed. |
| WindowManager.TCCClient.WindowManage | shell/client/windowmanagement.cpp:754-854 | Keeps Valid, and the seats in order; no window goes or comes. |
| WindowManager.TCCClient.SeatFocus | shell/client/windowmanagement.cpp:893-917 | Keeps Valid; the window goes to the top of its stack, and the seat has the focus on it. |
| WindowManager.TCCClient.SeatManage | shell/client/windowmanagement.cpp:1141-1240 | Keeps Valid; the seat is in order afterwards exactly if it is fine before. |
| WindowManager.TCCClient.RiverWmWindow | shell/client/windowmanagement.cpp:150-171 | From a Valid state, Valid again exactly if the main output is null or still there. |

## Left out

- Drawing, shaders, glyphs, icons, fonts and the fade; EGL, GL and GBM are a `Driver` that chooses strides and sizes.
- Sockets, poll, fork, memfd and signals: channels are sequences, a send has one of three outcomes, `poll` is when a step happens.
- MODIFIERS and BLUR messages, except that sending them can find the socket broken; the area that is blurred.
- Surface ids are natural numbers; `mNextSurfaceId` wraps after 2^32 surfaces.
- Sizes, coordinates and timestamps are unbounded integers; 32-bit overflow of window coordinates is not modelled.
- Surfaces, outputs and windows of the lock, the loader and the window manager are values in sequences and maps that the methods reassign, so aliasing is not modelled, and a dangling pointer is an id that names nothing; erasing while iterating is not modelled either.
- File descriptors in D-Bus values (`h`, reopened by path), and double-typed dict keys.
- Allocation failure inside libdbus and the varlink library, and integer parsing beyond what strtoll clamps.
- Emission of D-Bus signals from subscriptions, and the text of error messages.
- Pointer handling of the lock dialog, the caret and its blinking; the dialog only matters through the keys it shows for.
- Bringing the dialog up on a key press, which changes no password byte.
- Keys whose text is longer than 15 bytes: `xkb_state_key_get_utf8` is assumed to fit its buffer, and to give well-formed UTF-8.
- Seats that go, key bindings, nav buttons as surfaces, the sizes proposed while resizing, starting of components.
- Lock.TCCLock.DoLock: does not clear the password and the dialog's flags, which `Password.PasswordBox.Clear` models on its own.
- Bridge.TCCPortalBridge.SubscribeTo: does not emit the D-Bus signals a subscription leads to, which owe nobody a reply.
- WindowManager.TCCClient.RiverWmManageStart: does not remove seats, step the desktop's own client or start components; none of them lists or places a window.
- WindowManager.TCCClient.WindowMaybeDestroy: does not model `pointer_window` and the nav buttons, which only drawing and the cursor depend on.
- WindowManager.TCCClient.WindowManage: does not send the close request of the nav button or the capabilities, which change nothing the shell keeps.
- WindowManager.TCCClient.SeatManage: does not propose sizes while a resize goes on, only starts and ends it; actions that start programs are left out.
- DeskJourney.ComesBack: says nothing of a window whose output is moved, that is let go of on an output with another corner, or that is dragged off and made fullscreen at once; `OutputMovedExactly`, `LetGoAway` and `ManagedExactly` say that each of these steps loses its home, and when.
- The clipboard half of the snip tool, the registry, the desktop, the clock and the portal's own methods.
- `raw.reserve` in the encoder, whose size is computed in 32 bits; it has no effect on the output.
