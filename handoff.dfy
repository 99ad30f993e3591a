/**
 The hand-off between the hub's run loop and the game loop, as far as the
 hub's lock `mu` and the unbuffered `broadcast` channel are concerned. Each
 event is one atomic step; `Next` is None when the event is not enabled.
 `unlockBeforeSend` selects where `playMove` gives up `mu`: after handing its
 message to the run loop (as written, through the deferred unlock) or before.
 */
module Handoff {
  import opened Wrappers

  /** The run loop: at its `select`, or inside the register case waiting for `mu.RLock`. */
  datatype RunLoop = AtSelect | AwaitingReadLock

  /** `playMove`: not running, running with `mu` write-locked, or blocked on `broadcast <-`. */
  datatype Ticker = Idle | Locked | Sending

  datatype State = State(run: RunLoop, tick: Ticker, writeLocked: bool)

  const Init := State(AtSelect, Idle, false)

  datatype Event =
    | Register     // a client arrives on `register`
    | Snapshot     // the register case takes `mu.RLock`, sends the snapshot, unlocks
    | TickStart    // `playMove` takes `mu.Lock`
    | TickReturn   // `playMove` returns early (rollover, no legal move, apply error)
    | TickSend     // `playMove` reaches `broadcast <-`
    | Deliver      // the run loop receives the message; `playMove` returns

  function Next(s: State, e: Event, unlockBeforeSend: bool): Option<State>
  {
    match e
    case Register =>
      if s.run == AtSelect then Some(s.(run := AwaitingReadLock)) else None
    case Snapshot =>
      if s.run == AwaitingReadLock && !s.writeLocked then Some(s.(run := AtSelect)) else None
    case TickStart =>
      if s.tick == Idle && !s.writeLocked then Some(s.(tick := Locked, writeLocked := true)) else None
    case TickReturn =>
      if s.tick == Locked then Some(s.(tick := Idle, writeLocked := false)) else None
    case TickSend =>
      if s.tick == Locked
      then Some(s.(tick := Sending, writeLocked := !unlockBeforeSend))
      else None
    case Deliver =>
      if s.run == AtSelect && s.tick == Sending then Some(s.(tick := Idle, writeLocked := false)) else None
  }

  /** The state reached by a sequence of events, None if one of them is not enabled. */
  function Run(s: State, trace: seq<Event>, unlockBeforeSend: bool): Option<State>
    decreases |trace|
  {
    if trace == [] then Some(s)
    else match Next(s, trace[0], unlockBeforeSend)
      case None => None
      case Some(t) => Run(t, trace[1..], unlockBeforeSend)
  }

  /** No event can happen any more: both goroutines wait for each other. */
  predicate Stuck(s: State, unlockBeforeSend: bool)
  {
    forall e :: Next(s, e, unlockBeforeSend).None?
  }

  /**
   As written: a viewer registering while `playMove` holds the write lock
   leaves the run loop waiting for `mu.RLock` while `playMove`, still holding
   it, waits for the run loop to receive its broadcast.
   */
  lemma AsWrittenDeadlocks()
    ensures Run(Init, [TickStart, Register, TickSend], false) == Some(State(AwaitingReadLock, Sending, true))
    ensures Stuck(State(AwaitingReadLock, Sending, true), false)
  {
    assert Run(Init, [TickStart, Register, TickSend], false)
        == Run(State(AtSelect, Locked, true), [Register, TickSend], false);
    assert Run(State(AtSelect, Locked, true), [Register, TickSend], false)
        == Run(State(AwaitingReadLock, Locked, true), [TickSend], false);
  }

  /** With the lock released before the send, the write lock is held exactly while `playMove` is `Locked`. */
  ghost predicate Inv(s: State)
  {
    s.writeLocked <==> s.tick == Locked
  }

  lemma {:induction false} InvPreserved(s: State, trace: seq<Event>)
    requires Inv(s)
    ensures Run(s, trace, true).Some? ==> Inv(Run(s, trace, true).value)
    decreases |trace|
  {
    if trace != [] {
      match Next(s, trace[0], true)
      case None =>
      case Some(t) =>
        assert Inv(t);
        InvPreserved(t, trace[1..]);
    }
  }

  /** Corrected: whatever events have happened, some event can still happen. */
  lemma CorrectedNeverDeadlocks(trace: seq<Event>)
    ensures Run(Init, trace, true).Some? ==> !Stuck(Run(Init, trace, true).value, true)
  {
    InvPreserved(Init, trace);
    if Run(Init, trace, true).Some? {
      var s := Run(Init, trace, true).value;
      match s.tick
      case Idle => assert Next(s, TickStart, true).Some?;
      case Locked => assert Next(s, TickSend, true).Some?;
      case Sending =>
        if s.run == AtSelect {
          assert Next(s, Deliver, true).Some?;
        } else {
          assert Next(s, Snapshot, true).Some?;
        }
    }
  }
}
