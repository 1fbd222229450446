/** PidWaiter: wait for a child by asking waitpid after each SIGCHLD.

    `poll` first asks the signal stream, which either hands over a signal or registers the task to be
    woken by the next one, and only then calls waitpid. In that order no exit can be missed. */
module ProcessWait {
  import opened GcCells

  /** The process's view of the child and of SIGCHLD. `done`: waitpid on the target no longer says
      "not yet". `posted`: a SIGCHLD is on its way to the stream. `unseen`: the stream holds one.
      `registered`: the task will be woken by the next; `woken`: it has been. */
  datatype Os = Os(done: bool, posted: bool, unseen: bool, registered: bool, woken: bool)

  datatype Event = ChildEnds | OtherChildEnds | SignalArrives

  function Happen(os: Os, e: Event): Os {
    match e
    case ChildEnds => os.(done := true, posted := true)
    case OtherChildEnds => os.(posted := true)
    case SignalArrives =>
      if os.posted then os.(posted := false, unseen := true, registered := false, woken := os.woken || os.registered)
      else os
  }

  function HappenAll(os: Os, events: seq<Event>): Os
    decreases |events|
  {
    if events == [] then os else HappenAll(Happen(os, events[0]), events[1..])
  }

  function WrappingNeg(n: int): int {
    I32(-n)
  }

  /** Which raw pids try_wait hands to waitpid; the others are errors. */
  predicate PidAccepted(raw: int) {
    if raw == 0 then true
    else if raw == -1 then true
    else if WrappingNeg(raw) < raw then true
    else raw > 0
  }

  /** Exactly the raw pids from -1 up; a process group, below -1, is refused although the comment in
      the source lists it. */
  lemma AcceptedPids(raw: int)
    requires -HALF <= raw < HALF
    ensures PidAccepted(raw) <==> raw >= -1
  {
    if raw == -HALF {
      assert WrappingNeg(raw) == raw;
    }
  }

  predicate WillBeWoken(os: Os) {
    os.registered || os.woken
  }

  /** If the child has ended, the task has been woken since, or the signal that wakes it is on its way. */
  predicate WakeOutstanding(os: Os) {
    os.done ==> os.woken || (os.posted && os.registered)
  }

  function Arrivals(events: seq<Event>): nat {
    if events == [] then 0 else (if events[0].SignalArrives? then 1 else 0) + Arrivals(events[1..])
  }

  function AllArrivals(env: seq<seq<Event>>): nat {
    if env == [] then 0 else Arrivals(env[0]) + AllArrivals(env[1..])
  }

  lemma {:induction false} EventsKeepWake(os: Os, events: seq<Event>)
    ensures var later := HappenAll(os, events);
      && (WillBeWoken(os) ==> WillBeWoken(later))
      && (WillBeWoken(os) && WakeOutstanding(os) ==> WakeOutstanding(later))
      && (later.unseen ==> os.unseen || Arrivals(events) > 0)
    decreases |events|
  {
    if events != [] {
      EventsKeepWake(Happen(os, events[0]), events[1..]);
    }
  }

  /** No exit is missed: after a poll that returned pending, whatever happens, if the child has ended
      then the task has been woken or the signal that will wake it is on its way. */
  lemma NoExitIsMissed(os: Os, events: seq<Event>)
    requires !os.done && WillBeWoken(os)
    ensures WakeOutstanding(HappenAll(os, events))
  {
    EventsKeepWake(os, events);
  }

  type i32 = n: int | -HALF <= n < HALF witness 0

  /** What try_wait returns: the status of a child, not yet, or one of its two errors. */
  datatype Reply = Status | NotYet | InvalidFlags | InvalidPid

  class PidWaiter {
    const pid: i32
    const flagsKnown: bool
    var os: Os

    constructor (pid: i32, flagsKnown: bool, os: Os)
      ensures this.pid == pid && this.flagsKnown == flagsKnown && this.os == os
    {
      this.pid := pid;
      this.flagsKnown := flagsKnown;
      this.os := os;
    }

    predicate Valid() {
      flagsKnown && PidAccepted(pid)
    }

    /** poll_recv: takes a signal if the stream holds one, registers for the next otherwise. */
    method PollRecv() returns (pending: bool)
      modifies this
      ensures pending == !old(os.unseen)
      ensures os == if pending then old(os).(registered := true) else old(os).(unseen := false)
    {
      pending := !os.unseen;
      os := if pending then os.(registered := true) else os.(unseen := false);
    }

    /** try_wait with the no-hang flag. Flags are looked at first, then the pid, and waitpid is asked only
        if both are good. */
    method TryWait() returns (reply: Reply)
      ensures reply == InvalidFlags <==> !flagsKnown
      ensures reply == InvalidPid <==> flagsKnown && pid < -1
      ensures reply == Status <==> Valid() && os.done
    {
      AcceptedPids(pid);
      if !flagsKnown {
        return InvalidFlags;
      }
      if !PidAccepted(pid) {
        return InvalidPid;
      }
      return if os.done then Status else NotYet;
    }

    /** What happens in the process between two calls made by poll. */
    method Meanwhile(env: seq<seq<Event>>) returns (rest: seq<seq<Event>>)
      modifies this
      ensures env == [] ==> rest == [] && os == old(os)
      ensures env != [] ==> rest == env[1..] && os == HappenAll(old(os), env[0])
    {
      if env == [] {
        return [];
      }
      os := HappenAll(os, env[0]);
      return env[1..];
    }

    /** One poll, with the events of `env` happening between its calls. It is ready only if waitpid said
        so. If it returns pending, a wake is arranged, and the last waitpid, made after that, still said
        "not yet". It returns: each round after the first has taken a signal from the stream. */
    method Poll(env: seq<seq<Event>>) returns (ready: bool, rounds: nat)
      modifies this
      ensures ready ==> Valid() && os.done
      ensures !ready ==> WillBeWoken(os)
      ensures !ready && Valid() ==> !os.done
      ensures rounds <= 1 + (if old(os.unseen) then 1 else 0) + AllArrivals(env)
    {
      os := os.(woken := false);
      rounds := 0;
      var rest := env;
      while true
        invariant rounds + AllArrivals(rest) + (if os.unseen then 1 else 0)
                  <= AllArrivals(env) + (if old(os.unseen) then 1 else 0)
        decreases |rest|, os.unseen
      {
        rounds := rounds + 1;
        var registeredInterest := PollRecv();
        ghost var asked := os;
        if rest != [] { EventsKeepWake(asked, rest[0]); }
        rest := Meanwhile(rest);
        var reply := TryWait();
        match reply {
          case Status => return true, rounds;
          case NotYet =>
          case InvalidFlags =>    // an error is printed, and no more
          case InvalidPid =>
        }
        if registeredInterest {
          return false, rounds;
        }
        ghost var before := os;
        if rest != [] { EventsKeepWake(before, rest[0]); }
        rest := Meanwhile(rest);
      }
    }
  }
}
