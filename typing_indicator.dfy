/**
 * The typing debounce hook: one timeout slot (`typingTimeoutRef`) cleared and re-armed by
 * `handleTyping`, cleared by `handleStopTyping` and by the effect cleanup, and a pending
 * timeout that emits `stopped-typing` when it fires. Real time is replaced by an explicit
 * `TimerFires` step. `TypingState`/`Next`/`Emits` specify one step; the class `Indicator`
 * carries the same state in fields and is proved to follow that specification.
 */
module TypingIndicator {
  import opened ChatTypes
  import Socket

  /**
   * `timerRef`: the ref holds a timeout id (it is not nulled when that timeout fires or is
   * cleared by the cleanup). `pending`: the live timeout, with the conversation id its
   * callback captured.
   */
  datatype TypingState = TypingState(conversationId: Option<Id>, timerRef: bool, pending: Option<Id>)

  datatype TypingInput =
    | Keystroke               // handleTyping()
    | StopTyping              // handleStopTyping()
    | TimerFires              // the pending timeout runs its callback
    | Cleanup                 // the effect cleanup (unmount)
    | Rebind(next: Option<Id>) // a render with a different conversationId: cleanup, then the new id

  /** A live timeout is always the one the ref points at. */
  predicate Valid(s: TypingState) {
    s.pending.Some? ==> s.timerRef
  }

  /** The effect cleanup: a set ref means its timeout is cleared (the ref itself is kept). */
  function CleanedUp(s: TypingState): TypingState {
    if s.timerRef then s.(pending := None) else s
  }

  /** What the cleanup emits: `stopped-typing` for a truthy bound id. */
  function CleanupEmits(s: TypingState, connected: bool): seq<Socket.Emit> {
    if Truthy(s.conversationId) then Socket.EmitIfConnected(connected, Socket.StoppedTyping(s.conversationId.value)) else []
  }

  /** The state after one input. */
  function Next(s: TypingState, input: TypingInput): TypingState {
    match input
    case Keystroke =>
      if !Truthy(s.conversationId) then s
      else TypingState(s.conversationId, true, Some(s.conversationId.value))
    case StopTyping =>
      if !Truthy(s.conversationId) || !s.timerRef then s
      else s.(timerRef := false, pending := None)
    case TimerFires =>
      s.(pending := None)
    case Cleanup =>
      CleanedUp(s)
    case Rebind(next) =>
      if next == s.conversationId then s
      else CleanedUp(s).(conversationId := next)
  }

  /** What one input emits through a socket whose `connected` flag is `connected`. */
  function Emits(s: TypingState, connected: bool, input: TypingInput): seq<Socket.Emit> {
    match input
    case Keystroke =>
      if Truthy(s.conversationId) then Socket.EmitIfConnected(connected, Socket.Typing(s.conversationId.value)) else []
    case StopTyping =>
      if Truthy(s.conversationId) then Socket.EmitIfConnected(connected, Socket.StoppedTyping(s.conversationId.value)) else []
    case TimerFires =>
      if s.pending.Some? then Socket.EmitIfConnected(connected, Socket.StoppedTyping(s.pending.value)) else []
    case Cleanup =>
      CleanupEmits(s, connected)
    case Rebind(next) =>
      if next == s.conversationId then [] else CleanupEmits(s, connected)
  }

  /** Every input keeps the ref/timeout link. */
  lemma {:induction false} NextKeepsValid(s: TypingState, input: TypingInput)
    requires Valid(s)
    ensures Valid(Next(s, input))
  {
  }

  /** The final state and the emissions of a run of inputs, the socket's flag fixed. */
  function Run(s: TypingState, connected: bool, inputs: seq<TypingInput>): (TypingState, seq<Socket.Emit>)
    decreases |inputs|
  {
    if inputs == [] then (s, [])
    else
      var rest := Run(Next(s, inputs[0]), connected, inputs[1..]);
      (rest.0, Emits(s, connected, inputs[0]) + rest.1)
  }

  function Repeat<T>(x: T, n: nat): (r: seq<T>)
    ensures |r| == n && forall i :: 0 <= i < n ==> r[i] == x
  {
    if n == 0 then [] else [x] + Repeat(x, n - 1)
  }

  /** Running `[x] + rest` is one step on `x` followed by running `rest`. */
  lemma RunCons(s: TypingState, connected: bool, x: TypingInput, rest: seq<TypingInput>)
    ensures Run(s, connected, [x] + rest) ==
              (Run(Next(s, x), connected, rest).0, Emits(s, connected, x) + Run(Next(s, x), connected, rest).1)
  {
    assert ([x] + rest)[0] == x && ([x] + rest)[1..] == rest;
  }

  /**
   * With a connected socket, `n` keystrokes in a row (no timeout firing in between) emit `n`
   * `typing` events and leave exactly one timeout armed; when it fires, exactly one
   * `stopped-typing` follows and nothing is pending any more.
   */
  lemma {:induction false} KeystrokeBurst(s: TypingState, n: nat)
    requires Truthy(s.conversationId) && n >= 1
    ensures var c := s.conversationId.value;
            Run(s, true, Repeat(Keystroke, n)) == (TypingState(s.conversationId, true, Some(c)), Repeat(Socket.Typing(c), n))
    ensures var c := s.conversationId.value;
            Run(s, true, Repeat(Keystroke, n) + [TimerFires]) ==
              (TypingState(s.conversationId, true, None), Repeat(Socket.Typing(c), n) + [Socket.StoppedTyping(c)])
    decreases n
  {
    var c := s.conversationId.value;
    var armed := TypingState(s.conversationId, true, Some(c));
    var fired := TypingState(s.conversationId, true, None);
    var keys := Repeat(Keystroke, n - 1);
    assert Repeat(Keystroke, n) == [Keystroke] + keys;
    assert Repeat(Keystroke, n) + [TimerFires] == [Keystroke] + (keys + [TimerFires]);
    assert Repeat(Socket.Typing(c), n) == [Socket.Typing(c)] + Repeat(Socket.Typing(c), n - 1);
    assert Next(s, Keystroke) == armed;
    assert Emits(s, true, Keystroke) == [Socket.Typing(c)];
    RunCons(s, true, Keystroke, keys);
    RunCons(s, true, Keystroke, keys + [TimerFires]);
    if n == 1 {
      assert keys == [] && keys + [TimerFires] == [TimerFires] + [];
      RunCons(armed, true, TimerFires, []);
      assert Next(armed, TimerFires) == fired;
      assert Emits(armed, true, TimerFires) == [Socket.StoppedTyping(c)];
      assert Run(fired, true, []) == (fired, []);
      assert Repeat(Socket.Typing(c), n) == [Socket.Typing(c)];
      assert Run(armed, true, keys + [TimerFires]) == Run(armed, true, [TimerFires] + []);
      assert [Socket.StoppedTyping(c)] + [] == [Socket.StoppedTyping(c)];
      assert Run(armed, true, keys + [TimerFires]) == (fired, [Socket.StoppedTyping(c)]);
    } else {
      KeystrokeBurst(armed, n - 1);
      var tail := Run(armed, true, keys + [TimerFires]);
      assert tail == (fired, Repeat(Socket.Typing(c), n - 1) + [Socket.StoppedTyping(c)]);
      assert [Socket.Typing(c)] + tail.1 == Repeat(Socket.Typing(c), n) + [Socket.StoppedTyping(c)];
    }
  }

  /**
   * `handleStopTyping` leaves no timeout pending, emits one `stopped-typing`, and a second call
   * emits once more and changes nothing else.
   */
  lemma {:induction false} StopTypingSettles(s: TypingState)
    requires Valid(s) && Truthy(s.conversationId)
    ensures Next(s, StopTyping).pending == None
    ensures Next(Next(s, StopTyping), StopTyping) == Next(s, StopTyping)
    ensures Emits(s, true, StopTyping) == [Socket.StoppedTyping(s.conversationId.value)]
    ensures Emits(Next(s, StopTyping), true, StopTyping) == Emits(s, true, StopTyping)
  {
  }

  /** With no truthy conversation id the handlers emit nothing and leave the timeout alone. */
  lemma {:induction false} NoConversationNoEffect(s: TypingState, connected: bool)
    requires !Truthy(s.conversationId)
    ensures Next(s, Keystroke) == s && Emits(s, connected, Keystroke) == []
    ensures Next(s, StopTyping) == s && Emits(s, connected, StopTyping) == []
  {
  }

  /**
   * The effect cleanup leaves no timeout pending and emits `stopped-typing` for the id it was
   * bound to; a re-render with a new id does the same for the old id and then binds the new one.
   */
  lemma {:induction false} CleanupSettles(s: TypingState, next: Option<Id>)
    requires Valid(s) && Truthy(s.conversationId) && next != s.conversationId
    ensures Next(s, Cleanup).pending == None
    ensures Emits(s, true, Cleanup) == [Socket.StoppedTyping(s.conversationId.value)]
    ensures Next(s, Rebind(next)) == Next(s, Cleanup).(conversationId := next)
    ensures Emits(s, true, Rebind(next)) == Emits(s, true, Cleanup)
  {
  }

  class Indicator {
    const socket: Socket.ChatSocket
    var conversationId: Option<Id>
    var timerRef: bool
    var pending: Option<Id>

    function State(): TypingState
      reads this
    {
      TypingState(conversationId, timerRef, pending)
    }

    constructor (socket: Socket.ChatSocket, conversationId: Option<Id>)
      ensures this.socket == socket && State() == TypingState(conversationId, false, None)
    {
      this.socket := socket;
      this.conversationId := conversationId;
      timerRef := false;
      pending := None;
    }

    /** `handleTyping`: emit `typing`, clear the old timeout, arm a new one. */
    method HandleTyping()
      requires Valid(State())
      modifies this, socket`emitted
      ensures Valid(State())
      ensures State() == Next(old(State()), Keystroke)
      ensures socket.emitted == old(socket.emitted) + Emits(old(State()), socket.connected, Keystroke)
    {
      if !Truthy(conversationId) {
        return;
      }
      var cid := conversationId.value;
      socket.EmitTyping(cid);
      if timerRef {
        pending := None;
      }
      timerRef := true;
      pending := Some(cid);
    }

    /** `handleStopTyping`: clear and null the timeout, emit `stopped-typing` at once. */
    method HandleStopTyping()
      requires Valid(State())
      modifies this, socket`emitted
      ensures Valid(State())
      ensures State() == Next(old(State()), StopTyping)
      ensures socket.emitted == old(socket.emitted) + Emits(old(State()), socket.connected, StopTyping)
    {
      if !Truthy(conversationId) {
        return;
      }
      if timerRef {
        pending := None;
        timerRef := false;
      }
      socket.EmitStoppedTyping(conversationId.value);
    }

    /** The pending timeout runs: `emitStoppedTyping` for the id it captured; the ref keeps its stale id. */
    method FireTimer()
      requires Valid(State())
      modifies this, socket`emitted
      ensures Valid(State())
      ensures State() == Next(old(State()), TimerFires)
      ensures socket.emitted == old(socket.emitted) + Emits(old(State()), socket.connected, TimerFires)
    {
      if pending.Some? {
        var cid := pending.value;
        pending := None;
        socket.EmitStoppedTyping(cid);
      }
    }

    /** The effect cleanup: clear the timeout (the ref is not nulled), emit `stopped-typing` for the bound id. */
    method CleanupEffect()
      requires Valid(State())
      modifies this, socket`emitted
      ensures Valid(State())
      ensures State() == Next(old(State()), Cleanup)
      ensures socket.emitted == old(socket.emitted) + Emits(old(State()), socket.connected, Cleanup)
    {
      if timerRef {
        pending := None;
      }
      if Truthy(conversationId) {
        socket.EmitStoppedTyping(conversationId.value);
      }
    }

    /** A render with `next` as the conversation id: when it differs, the old effect is cleaned up first. */
    method Rerender(next: Option<Id>)
      requires Valid(State())
      modifies this, socket`emitted
      ensures Valid(State())
      ensures State() == Next(old(State()), Rebind(next))
      ensures socket.emitted == old(socket.emitted) + Emits(old(State()), socket.connected, Rebind(next))
    {
      if next != conversationId {
        CleanupEffect();
        conversationId := next;
      }
    }
  }
}
