/** Starting and stopping the background worker: generations and the tokens that name them. */
module Worker {
  import opened Protocol

  /** A worker thread is named by its token, the generation it was started in. */
  class StartStopJoinHandle {
    var generation: nat
    var handle: Option<nat>

    ghost predicate Valid()
      reads this
    {
      handle.Some? ==> handle.value == generation
    }

    constructor ()
      ensures Valid() && generation == 0 && handle == None
    {
      generation, handle := 0, None;
    }

    /** Hands the next token to a new thread, unless one is running. */
    method Start() returns (started: bool, token: nat)
      requires Valid()
      modifies this
      ensures Valid()
      ensures started <==> old(handle).None?
      ensures View() == AfterStart(old(View()))
      ensures started ==> token == generation
    {
      if handle.Some? {
        return false, 0;
      }
      generation := generation + 1;
      handle := Some(generation);
      return true, generation;
    }

    /** Takes the handle of the running thread, to be joined by the caller. */
    method Stop() returns (stopped: bool, thread: Option<nat>)
      requires Valid()
      modifies this
      ensures Valid()
      ensures View() == AfterStop(old(View())) && thread == old(handle) && (stopped <==> thread.Some?)
    {
      thread := handle;
      stopped := thread.Some?;
      handle := None;
    }

    predicate IsStopped(token: nat)
      reads this
      ensures IsStopped(token) == Stopped(View(), token)
    {
      handle.None? || generation != token
    }

    predicate IsStarted()
      reads this
    {
      handle.Some?
    }

    function View(): Slot
      reads this
    {
      Slot(generation, handle.Some?)
    }
  }

  /** The pair behind the mutex: the newest token given out, and whether its thread is in place. */
  datatype Slot = Slot(generation: nat, running: bool)

  datatype Op = Start | Stop

  function AfterStart(s: Slot): Slot {
    if s.running then s else Slot(s.generation + 1, true)
  }

  function AfterStop(s: Slot): Slot {
    s.(running := false)
  }

  predicate Stopped(s: Slot, token: nat) {
    !s.running || s.generation != token
  }

  function Apply(s: Slot, op: Op): Slot {
    match op
    case Start => AfterStart(s)
    case Stop => AfterStop(s)
  }

  function After(s: Slot, ops: seq<Op>): Slot
    decreases |ops|
  {
    if ops == [] then s else After(Apply(s, ops[0]), ops[1..])
  }

  /** The tokens given out by a run, in order. */
  function Tokens(s: Slot, ops: seq<Op>): seq<nat>
    decreases |ops|
  {
    if ops == [] then [] else
      (if ops[0].Start? && !s.running then [s.generation + 1] else []) + Tokens(Apply(s, ops[0]), ops[1..])
  }

  lemma {:induction false} GenerationsCount(s: Slot, ops: seq<Op>)
    ensures After(s, ops).generation == s.generation + |Tokens(s, ops)|
    ensures forall i | 0 <= i < |Tokens(s, ops)| :: Tokens(s, ops)[i] == s.generation + 1 + i
    decreases |ops|
  {
    if ops != [] {
      GenerationsCount(Apply(s, ops[0]), ops[1..]);
    }
  }

  /** Of all tokens ever given out at most one is live, and it is the newest. */
  lemma OnlyNewestIsLive(ops: seq<Op>, i: nat)
    requires i < |Tokens(Slot(0, false), ops)|
    ensures var s, tokens := After(Slot(0, false), ops), Tokens(Slot(0, false), ops);
      !Stopped(s, tokens[i]) <==> s.running && i == |tokens| - 1
  {
    GenerationsCount(Slot(0, false), ops);
  }

  /** Once a token that has been given out is stopped it stays stopped, through any restarts. */
  lemma {:induction false} StoppedStaysStopped(s: Slot, token: nat, ops: seq<Op>)
    requires token <= s.generation && Stopped(s, token)
    ensures Stopped(After(s, ops), token)
    decreases |ops|
  {
    if ops != [] {
      StoppedStaysStopped(Apply(s, ops[0]), token, ops[1..]);
    }
  }

  /** A running worker's token is live until a stop: starts in between change nothing. */
  lemma {:induction false} LiveUntilStop(s: Slot, ops: seq<Op>)
    requires s.running
    ensures After(s, ops) == s <==> Stop !in ops
    ensures Stop in ops ==> Stopped(After(s, ops), s.generation)
    decreases |ops|
  {
    if ops != [] {
      if ops[0] == Stop {
        StoppedStaysStopped(AfterStop(s), s.generation, ops[1..]);
      } else {
        LiveUntilStop(s, ops[1..]);
      }
    }
  }
}
