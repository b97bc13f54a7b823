/**
 The password that is being typed at the lock screen, kept as bytes in place:
 what it means is a stack of characters. And PAM, which is given it to check.
 */
module Password {
  import opened Bytes
  import opened Utf8

  const PASSWORD_MAX: nat := 1024
  const MOST_STARS: nat := 48

  // ---------- the stack of characters ----------

  /** What a key types; `Text` is what the keyboard layout says, without its NUL. */
  datatype Key = Enter | Backspace | Escape | Text(typed: seq<Scalar>)

  /** Text that starts with a control character, or does not fit, is not typed. */
  predicate Typed(stack: seq<Scalar>, us: seq<Scalar>) {
    && us != [] && us[0] >= 0x20 && us[0] != 0x7F
    && |EncodeAll(stack)| + |EncodeAll(us)| < PASSWORD_MAX
  }

  function Press(stack: seq<Scalar>, key: Key): seq<Scalar> {
    match key
    case Enter => []
    case Escape => []
    case Backspace => if stack == [] then [] else stack[..|stack| - 1]
    case Text(us) => if Typed(stack, us) then stack + us else stack
  }

  /** The characters of a key are not NUL, as they come in a C string. */
  predicate InString(key: Key) {
    key.Text? ==> 0 !in key.typed && |EncodeAll(key.typed)| < 16
  }

  function CString(s: seq<byte>): seq<byte> {
    if s == [] || s[0] == 0 then [] else [s[0]] + CString(s[1..])
  }

  lemma {:induction false} CStringOf(s: seq<byte>, rest: seq<byte>)
    requires 0 !in s
    ensures CString(s + [0] + rest) == s
  {
    if s == [] {
      assert s + [0] + rest == [0] + rest;
    } else {
      CStringOf(s[1..], rest);
      assert (s + [0] + rest)[1..] == s[1..] + [0] + rest;
    }
  }

  lemma {:induction false} NoZeros(us: seq<Scalar>)
    requires 0 !in us
    ensures 0 !in EncodeAll(us)
  {
    if us != [] {
      NoZeros(us[..|us| - 1]);
      EncodeShape(us[|us| - 1]);
      hide Encode;
    }
  }

  lemma FirstByte(us: seq<Scalar>)
    requires us != []
    ensures |EncodeAll(us)| > 0
    ensures EncodeAll(us)[0] >= 0x20 && EncodeAll(us)[0] != 0x7F <==> us[0] >= 0x20 && us[0] != 0x7F
  {
    EncodeAllFirst(us);
    EncodeShape(us[0]);
    assert us[0] >= 0x80 ==> Encode(us[0])[0] >= 0x80;
    hide Encode;
  }

  lemma EncodeAllNone()
    ensures EncodeAll([]) == []
  {
  }

  /** Where the last character starts. */
  lemma LastCharacter(us: seq<Scalar>) returns (n: nat)
    requires us != []
    ensures n < |EncodeAll(us)| && EncodeAll(us)[..n] == EncodeAll(us[..|us| - 1])
    ensures forall k :: n <= k < |EncodeAll(us)| ==> (Continuation(EncodeAll(us)[k]) <==> k != n)
  {
    var rest, u := us[..|us| - 1], us[|us| - 1];
    n := |EncodeAll(rest)|;
    EncodeShape(u);
    assert EncodeAll(us) == EncodeAll(rest) + Encode(u);
    hide Encode, EncodeAll, Continuation;
  }

  // ---------- PAM ----------

  datatype PamEvent = Asked | WorkerDone(success: bool) | Polled

  /** `asked`, `results` and `reported` are history: conversations, how they ended, what polling gave. */
  datatype PamState = PamState(busy: bool, done: bool, success: bool, asked: nat, results: seq<bool>,
                               reported: seq<bool>)

  const NO_PAM: PamState := PamState(false, false, false, 0, [], [])

  function PamStep(s: PamState, e: PamEvent): PamState {
    match e
    case Asked => if s.busy then s else s.(busy := true, done := false, asked := s.asked + 1)
    case WorkerDone(success) =>
      if s.busy && !s.done then s.(done := true, success := success, results := s.results + [success]) else s
    case Polled => if s.busy && s.done then s.(busy := false, reported := s.reported + [s.success]) else s
  }

  function PamRun(events: seq<PamEvent>): PamState {
    if events == [] then NO_PAM else PamStep(PamRun(events[..|events| - 1]), events[|events| - 1])
  }

  /** Every conversation ends with one result, and each result is reported once, in order. */
  lemma {:induction false} ReportedOnce(events: seq<PamEvent>)
    ensures var s := PamRun(events);
            s.asked == |s.reported| + One(s.busy)
            && |s.results| == |s.reported| + One(s.busy && s.done)
            && s.reported == s.results[..|s.reported|]
            && (s.busy && s.done ==> s.results[|s.reported|] == s.success)
  {
    if events != [] {
      ReportedOnce(events[..|events| - 1]);
    }
  }

  /** The worker thread's side is `Finish`: it wipes its copy of the password before it is done. */
  class TCCPamAuth {
    const mPassword: array<byte>
    var mBusy: bool
    var mDone: bool
    var mSuccess: bool
    ghost var history: PamState

    constructor ()
      ensures mPassword.Length == PASSWORD_MAX && fresh(mPassword) && history == NO_PAM && Recorded()
    {
      mPassword := new byte[PASSWORD_MAX];
      mBusy, mDone, mSuccess := false, false, false;
      history := NO_PAM;
    }

    ghost predicate Recorded()
      reads this
    {
      history.busy == mBusy && history.done == mDone && history.success == mSuccess
    }

    /** What PAM is answered with at every prompt. */
    function Answer(): seq<byte>
      reads mPassword
    {
      CString(mPassword[..])
    }

    method Start(password: array<byte>, len: nat)
      requires mPassword.Length == PASSWORD_MAX && password != mPassword && len <= password.Length && Recorded()
      modifies this, mPassword
      ensures Recorded() && history == PamStep(old(history), Asked)
      ensures old(mBusy) ==> mBusy && mDone == old(mDone) && mPassword[..] == old(mPassword[..])
      ensures !old(mBusy) ==> mBusy && !mDone
      ensures !old(mBusy) ==>
                var n := if len >= PASSWORD_MAX then PASSWORD_MAX - 1 else len;
                mPassword[..n] == password[..n] && mPassword[n] == 0
      ensures !old(mBusy) && len < PASSWORD_MAX && 0 !in password[..len] ==> Answer() == password[..len]
    {
      if mBusy {
        return;
      }
      var n := if len >= PASSWORD_MAX then PASSWORD_MAX - 1 else len;
      for i := 0 to n
        invariant forall k :: 0 <= k < i ==> mPassword[k] == password[k]
        modifies mPassword
      {
        mPassword[i] := password[i];
      }
      mPassword[n] := 0;
      assert mPassword[..n] == password[..n];
      assert mPassword[..] == password[..n] + [0] + mPassword[n + 1..];
      if 0 !in password[..n] {
        CStringOf(password[..n], mPassword[n + 1..]);
      }
      mBusy := true;
      mDone := false;
      history := PamStep(history, Asked);
    }

    method Finish(success: bool)
      requires mBusy && !mDone && Recorded()
      modifies this, mPassword
      ensures Recorded() && history == PamStep(old(history), WorkerDone(success))
      ensures mBusy && mDone && mSuccess == success
      ensures forall k :: 0 <= k < mPassword.Length ==> mPassword[k] == 0
    {
      for i := 0 to mPassword.Length
        invariant forall k :: 0 <= k < i ==> mPassword[k] == 0
        invariant mBusy && !mDone && Recorded() && history == old(history)
      {
        mPassword[i] := 0;
      }
      mSuccess := success;
      mDone := true;
      history := PamStep(history, WorkerDone(success));
    }

    /** A result, the first time it is asked for after the worker is done. */
    method PollResult() returns (got: bool, ok: bool)
      requires Recorded()
      modifies this
      ensures Recorded() && history == PamStep(old(history), Polled)
      ensures got == old(mBusy && mDone)
      ensures got ==> ok == old(mSuccess) && !mBusy
      ensures !got ==> mBusy == old(mBusy)
      ensures mDone == old(mDone) && mSuccess == old(mSuccess)
    {
      ok := false;
      if !mBusy || !mDone {
        return false, false;
      }
      history := PamStep(history, Polled);
      mBusy := false;
      ok := mSuccess;
      got := true;
    }
  }

  // ---------- the password box ----------

  class PasswordBox {
    const mPassword: array<byte>
    const mPam: TCCPamAuth
    var mPasswordLen: nat
    /** The characters typed so far. */
    ghost var stack: seq<Scalar>

    constructor ()
      ensures Apart() && mPasswordLen == 0 && mPam.Recorded()
    {
      mPassword := new byte[PASSWORD_MAX];
      mPam := new TCCPamAuth();
      mPasswordLen := 0;
      stack := [];
    }

    ghost predicate Apart() {
      mPassword.Length == PASSWORD_MAX && mPam.mPassword.Length == PASSWORD_MAX && mPam.mPassword != mPassword
    }

    ghost predicate Valid()
      reads this, mPassword
    {
      && Apart() && mPasswordLen < PASSWORD_MAX
      && mPassword[..mPasswordLen] == EncodeAll(stack) && 0 !in stack
      && forall k :: mPasswordLen <= k < PASSWORD_MAX ==> mPassword[k] == 0
    }

    method Clear()
      requires Apart()
      modifies this, mPassword
      ensures Valid() && stack == []
    {
      for i := 0 to PASSWORD_MAX
        invariant Apart() && forall k :: 0 <= k < i ==> mPassword[k] == 0
      {
        mPassword[i] := 0;
      }
      mPasswordLen := 0;
      stack := [];
    }

    method Backspace()
      requires Valid()
      modifies this, mPassword
      ensures Valid() && stack == Press(old(stack), Key.Backspace)
    {
      hide Encode, EncodeAll, Continuation;
      if mPasswordLen == 0 {
        StartsCountScalars(stack);
        return;
      }
      assert stack != [] by {
        EncodeAllNone();
      }
      ghost var n := LastCharacter(stack);
      ghost var rest := stack[..|stack| - 1];
      DropLast(n);
      stack := rest;
    }

    /** Back over one character, which starts at n. */
    method DropLast(ghost n: nat)
      requires Apart() && n < mPasswordLen < PASSWORD_MAX
      requires forall k :: n <= k < mPasswordLen ==> (Continuation(mPassword[k]) <==> k != n)
      requires forall k :: mPasswordLen <= k < PASSWORD_MAX ==> mPassword[k] == 0
      modifies this`mPasswordLen, mPassword
      ensures Apart() && mPasswordLen == n && mPassword[..n] == old(mPassword[..mPasswordLen])[..n]
      ensures forall k :: n <= k < PASSWORD_MAX ==> mPassword[k] == 0
    {
      hide Continuation;
      while mPasswordLen > 0
        invariant n < mPasswordLen <= old(mPasswordLen)
        invariant forall k :: 0 <= k < mPasswordLen ==> mPassword[k] == old(mPassword[k])
        invariant forall k :: mPasswordLen <= k < PASSWORD_MAX ==> mPassword[k] == 0
      {
        mPasswordLen := mPasswordLen - 1;
        var c := mPassword[mPasswordLen];
        mPassword[mPasswordLen] := 0;
        if !Continuation(c) {
          break;
        }
      }
    }

    /** Bytes that fit, added at the end. */
    method Append(buf: seq<byte>)
      requires Apart() && mPasswordLen + |buf| < PASSWORD_MAX
      requires forall k :: mPasswordLen <= k < PASSWORD_MAX ==> mPassword[k] == 0
      modifies this`mPasswordLen, mPassword
      ensures mPasswordLen == old(mPasswordLen) + |buf|
              && mPassword[..mPasswordLen] == old(mPassword[..mPasswordLen]) + buf
      ensures forall k :: mPasswordLen <= k < PASSWORD_MAX ==> mPassword[k] == 0
    {
      for i := 0 to |buf|
        invariant mPasswordLen == old(mPasswordLen)
        invariant mPassword[..mPasswordLen + i] == old(mPassword[..mPasswordLen]) + buf[..i]
        invariant forall k :: mPasswordLen + i <= k < PASSWORD_MAX ==> mPassword[k] == 0
      {
        mPassword[mPasswordLen + i] := buf[i];
      }
      mPasswordLen := mPasswordLen + |buf|;
    }

    method Type(us: seq<Scalar>, buf: seq<byte>)
      requires Valid() && buf == EncodeAll(us) && InString(Text(us))
      modifies this, mPassword
      ensures Valid() && stack == Press(old(stack), Text(us))
    {
      hide Encode, EncodeAll;
      var n := |buf|;
      if us != [] {
        FirstByte(us);
      } else {
        EncodeAllNone();
      }
      if n > 0 && buf[0] >= 0x20 && buf[0] != 0x7F && mPasswordLen + n < PASSWORD_MAX {
        EncodeAllJoin(stack, us);
        Append(buf);
        stack := stack + us;
      }
    }

    /** The password is handed to PAM as it was typed, all of it. */
    method Submit()
      requires Valid() && mPam.Recorded()
      modifies this, mPassword, mPam, mPam.mPassword
      ensures Valid() && mPam.Recorded()
      ensures old(stack) == [] || old(mPam.mBusy) ==>
                stack == old(stack) && mPam.mBusy == old(mPam.mBusy) && mPam.mDone == old(mPam.mDone)
      ensures old(stack) != [] && !old(mPam.mBusy) ==>
                stack == [] && mPam.mBusy && !mPam.mDone && mPam.Answer() == EncodeAll(old(stack))
    {
      if stack != [] {
        FirstByte(stack);
      }
      if mPasswordLen == 0 || mPam.mBusy {
        return;
      }
      NoZeros(stack);
      mPam.Start(mPassword, mPasswordLen);
      Clear();
    }

    /** A key pressed while locked, on a keyboard with a layout, and with no check under way. */
    method HandleKey(locked: bool, hasState: bool, key: Key, buf: seq<byte>)
      requires Valid() && mPam.Recorded() && InString(key) && (key.Text? ==> buf == EncodeAll(key.typed))
      modifies this, mPassword, mPam, mPam.mPassword
      ensures Valid() && mPam.Recorded()
      ensures stack == if locked && hasState && !old(mPam.mBusy) then Press(old(stack), key) else old(stack)
      ensures mPam.mBusy == (old(mPam.mBusy) || (locked && hasState && key.Enter? && old(stack) != []))
      ensures !old(mPam.mBusy) && mPam.mBusy ==> !mPam.mDone && mPam.Answer() == EncodeAll(old(stack))
    {
      if !locked || !hasState {
        return;
      }
      if mPam.mBusy {
        return;
      }
      match key
      case Enter => Submit();
      case Backspace => Backspace();
      case Escape => Clear();
      case Text(us) => Type(us, buf);
    }

    /** One star for each character, as many as fit. */
    method Stars() returns (n: nat)
      requires Valid()
      ensures n == if |stack| < MOST_STARS then |stack| else MOST_STARS
    {
      var chars := 0;
      for i := 0 to mPasswordLen
        invariant chars == Starts(mPassword[..i])
      {
        assert mPassword[..i + 1][..i] == mPassword[..i];
        if !Continuation(mPassword[i]) {
          chars := chars + 1;
        }
      }
      StartsCountScalars(stack);
      n := if chars < MOST_STARS then chars else MOST_STARS;
    }
  }
}
