/** Completion tracking for the one motion command that may be in flight.

    The value functions give the five completion rules; the class keeps the id
    in the firmware's 40-byte buffer and the deadline as a wrapping 32-bit
    millisecond count. */
module CommandTracking {
  import opened GateMachine
  import opened Words

  const MAX_COMMAND_ID := 40

  /** Why a command failed: the tracker's fixed error texts, and `Halted(r)` for
      the text of the gate's own reason. */
  datatype AckError =
    | NoError
    | Superseded
    | Halted(why: Reason)
    | RejectedByBeam
    | DeadlineExceeded

  datatype Ack = Ack(id: string, success: bool, error: AckError)

  datatype Verdict = Pending | Fire(ack: Ack)

  datatype Tracker = Tracker(id: string, terminalOk: State, deadline: uint32, armed: bool)

  const Idle := Tracker("", Initializing, 0, false)

  // --- C strings --------------------------------------------------------------

  /** The text of a NUL-terminated buffer. */
  function CString(s: seq<char>): (r: string)
    ensures '\0' !in r
    ensures r <= s
    ensures r == s || s[|r|] == '\0'
  {
    if s == [] || s[0] == '\0' then [] else [s[0]] + CString(s[1..])
  }

  lemma {:induction false} CStringUnique(s: seq<char>, n: nat)
    requires n < |s| && s[n] == '\0' && '\0' !in s[..n]
    ensures CString(s) == s[..n]
  {
    if n > 0 {
      assert s[1..][..n - 1] == s[..n][1..];
      CStringUnique(s[1..], n - 1);
    }
  }

  /** What the tracker keeps of an id: its C-string text, at most 39 bytes. */
  function Cut(id: string): string {
    var text := CString(id);
    if |text| < MAX_COMMAND_ID then text else text[..MAX_COMMAND_ID - 1]
  }

  lemma CutIsPrefix(id: string, n: nat)
    requires n <= |id| && n < MAX_COMMAND_ID && '\0' !in id[..n]
    requires n == MAX_COMMAND_ID - 1 || n == |id| || id[n] == '\0'
    ensures Cut(id) == id[..n]
  {
    assert |Cut(id)| == n;
    assert Cut(id) <= id;
  }

  /** So at most 39 bytes are kept, and an id of that length or less is kept whole. */
  lemma CutKeepsThirtyNine(id: string)
    requires '\0' !in id
    ensures Cut(id) == if |id| <= 39 then id else id[..39]
  {
    if |id| <= 39 {
      CutIsPrefix(id, |id|);
      assert id[..|id|] == id;
    } else {
      CutIsPrefix(id, 39);
    }
  }

  // --- The five rules -----------------------------------------------------------

  function AfterResolve(t: Tracker, success: bool, error: AckError): (Tracker, Verdict) {
    (t.(armed := false), Fire(Ack(t.id, success, error)))
  }

  function AfterArm(t: Tracker, id: string, terminalOk: State, deadline: uint32): (Tracker, Verdict) {
    (Tracker(Cut(id), terminalOk, deadline, true),
     if t.armed then AfterResolve(t, false, Superseded).1 else Pending)
  }

  function AfterGateEvent(t: Tracker, s: State, why: Reason, transitioned: bool): (Tracker, Verdict) {
    if !t.armed then (t, Pending)
    else if transitioned && s == t.terminalOk then AfterResolve(t, true, NoError)
    else if transitioned && (s.Faulted? || s.Stopped()) then AfterResolve(t, false, Halted(why))
    else if !transitioned && why == SafetyBeamObstacle then AfterResolve(t, false, RejectedByBeam)
    else (t, Pending)
  }

  /** The 32-bit difference `now - deadline`, read as signed, is not negative. */
  predicate Expired(now: uint32, deadline: uint32) {
    (now - deadline) % TWO_32 < TWO_31
  }

  function AfterTick(t: Tracker, now: uint32): (Tracker, Verdict) {
    if t.armed && Expired(now, t.deadline) then AfterResolve(t, false, DeadlineExceeded)
    else (t, Pending)
  }

  /** On true time the wrapping comparison is exact within half the clock's range:
      it says "reached" exactly when `now` is at or past `due`. */
  lemma ExpiredIffReached(now: nat, due: nat)
    requires -TWO_31 <= now - due < TWO_31
    ensures Expired(now % TWO_32, due % TWO_32) <==> due <= now
  {
    var d := now % TWO_32 - due % TWO_32;
    assert d == (now - due) - TWO_32 * (now / TWO_32 - due / TWO_32);
    ModShift(now - due, now / TWO_32 - due / TWO_32);
  }

  lemma ModShift(x: int, k: int)
    ensures (x - TWO_32 * k) % TWO_32 == x % TWO_32
  {
  }

  // --- The object -------------------------------------------------------------

  class CommandTracker {
    const id: array<char>
    var terminalOk: State
    var deadline: uint32
    var armed: bool

    ghost predicate Valid()
      reads this, id
    {
      id.Length == MAX_COMMAND_ID && '\0' in id[..]
    }

    function Value(): Tracker
      reads this, id
    {
      Tracker(CString(id[..]), terminalOk, deadline, armed)
    }

    constructor ()
      ensures Valid() && fresh(id) && Value() == Idle
    {
      id := new char[MAX_COMMAND_ID](_ => '\0');
      terminalOk, deadline, armed := Initializing, 0, false;
      new;
      assert id[..][0] == '\0';
    }

    method Resolve(success: bool, error: AckError) returns (v: Verdict)
      modifies this`armed
      ensures (Value(), v) == AfterResolve(old(Value()), success, error)
    {
      armed := false;
      v := Fire(Ack(CString(id[..]), success, error));
    }

    method Arm(commandId: string, terminalOk: State, deadline: uint32) returns (superseded: Verdict)
      requires Valid()
      modifies this, id
      ensures Valid()
      ensures (Value(), superseded) == AfterArm(old(Value()), commandId, terminalOk, deadline)
    {
      superseded := Pending;
      if armed {
        superseded := Resolve(false, Superseded);
      }
      var n := 0;
      while n < MAX_COMMAND_ID - 1 && n < |commandId| && commandId[n] != '\0'
        invariant 0 <= n < MAX_COMMAND_ID && n <= |commandId|
        invariant '\0' !in commandId[..n]
      {
        n := n + 1;
      }
      forall i | 0 <= i < n {
        id[i] := commandId[i];
      }
      id[n] := '\0';
      this.terminalOk := terminalOk;
      this.deadline := deadline;
      armed := true;
      assert id[..n] == commandId[..n] && id[..][n] == '\0';
      assert id[..][..n] == id[..n];
      CStringUnique(id[..], n);
      CutIsPrefix(commandId, n);
    }

    method OnGateEvent(s: State, why: Reason, transitioned: bool) returns (v: Verdict)
      modifies this`armed
      ensures (Value(), v) == AfterGateEvent(old(Value()), s, why, transitioned)
    {
      if !armed {
        return Pending;
      }
      if transitioned && s == terminalOk {
        v := Resolve(true, NoError);
        return;
      }
      if transitioned && s == Faulted {
        v := Resolve(false, Halted(why));
        return;
      }
      if transitioned && (s == StoppedOpen || s == StoppedClose) {
        v := Resolve(false, Halted(why));
        return;
      }
      if !transitioned && why == SafetyBeamObstacle {
        v := Resolve(false, RejectedByBeam);
        return;
      }
      return Pending;
    }

    method OnTick(now: uint32) returns (v: Verdict)
      modifies this`armed
      ensures (Value(), v) == AfterTick(old(Value()), now)
    {
      // unsigned subtraction, then a cast to a signed 32-bit integer
      var unsigned := (now - deadline) % TWO_32;
      var signed := if unsigned < TWO_31 then unsigned else unsigned - TWO_32;
      if !armed || signed < 0 {
        return Pending;
      }
      v := Resolve(false, DeadlineExceeded);
    }
  }
}
