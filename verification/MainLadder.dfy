/** main of ucp_hello_world_v2.cpp: staged acquisition, the two roles' address exchange, and the
    teardown labels, for every outcome of every call. */
module MainLadder {
  import opened Wire
  import opened Roles

  datatype Resource = Settings | Context | Worker | Address | Socket | PeerAddr

  datatype Event = Acquire(r: Resource) | Use(r: Resource) | Release(r: Resource)

  /** How the calls of main turn out. `lengthMoved` and `addressMoved` are what recv (client) or send
      (server) returned, `addressLen` the length they exchange, and `role` what the role function
      returned, None if it killed the process. */
  datatype Outcome = Outcome(parsed: bool, config: bool, context: bool, worker: bool, query: bool, client: bool,
                             connected: bool, lengthMoved: int, addressLen: nat, malloc: bool, addressMoved: int,
                             role: Option<int>, failure: FailureMode, barrier: int)

  /** What is held after these events. */
  function Held(log: seq<Event>): set<Resource>
    decreases |log|
  {
    if log == [] then {}
    else
      var was := Held(log[..|log| - 1]);
      match log[|log| - 1]
      case Acquire(r) => was + {r}
      case Use(_) => was
      case Release(r) => was - {r}
  }

  /** The resources the labels of main release, from the innermost level outwards. */
  function Depth(r: Resource): nat {
    match r
    case Context => 1
    case Worker => 2
    case Address => 3
    case PeerAddr => 4
    case _ => 0
  }

  /** Nothing held was acquired inside r. Socket and configuration do not take part in the nesting. */
  predicate Innermost(held: set<Resource>, r: Resource) {
    Depth(r) == 0 || forall x :: x in held && x != r ==> Depth(x) < Depth(r)
  }

  /** Nothing is acquired twice, or used or released without being held, and the nested resources are
      released in the reverse order of their acquisition. */
  predicate Disciplined(log: seq<Event>)
    decreases |log|
  {
    log == [] ||
    var front := log[..|log| - 1];
    && Disciplined(front)
    && match log[|log| - 1]
       case Acquire(r) => Acquire(r) !in front && Innermost(Held(front), r)
       case Use(r) => r in Held(front)
       case Release(r) => r in Held(front) && Innermost(Held(front), r)
  }

  function Count(log: seq<Event>, e: Event): nat
    decreases |log|
  {
    if log == [] then 0 else Count(log[..|log| - 1], e) + if log[|log| - 1] == e then 1 else 0
  }

  /** What the discipline means for one resource: acquired at most once, and released exactly as often as
      it was acquired unless it is still held. */
  lemma {:induction false} EachOnce(log: seq<Event>, r: Resource)
    requires Disciplined(log)
    ensures Count(log, Acquire(r)) == if Acquire(r) in log then 1 else 0
    ensures Count(log, Release(r)) == Count(log, Acquire(r)) - if r in Held(log) then 1 else 0
    decreases |log|
  {
    if log != [] {
      EachOnce(log[..|log| - 1], r);
      assert log == log[..|log| - 1] + [log[|log| - 1]];
    }
  }

  /** main has its out-of-band socket. */
  predicate Connected(o: Outcome) {
    o.parsed && o.config && o.context && o.worker && o.query && o.connected
  }

  /** main reached the role functions. */
  predicate Exchanged(o: Outcome) {
    && Connected(o) && LengthCheck(o.lengthMoved, HEADER) && (o.client ==> o.malloc)
    && LengthCheck(o.addressMoved, o.addressLen)
  }

  /** The exit code, by how far main got. */
  function ExitCode(o: Outcome): int {
    if !Connected(o) then -1
    else if !LengthCheck(o.lengthMoved, HEADER) || (o.client && !o.malloc) then ToInt32(o.lengthMoved)
    else if !LengthCheck(o.addressMoved, o.addressLen) then ToInt32(o.addressMoved)
    else if o.role == Some(0) && o.failure == NoFailure then o.barrier
    else if o.role.Some? then o.role.value
    else 0
  }

  /** Role function and barrier succeeded, or one transfer of the address exchange moved nothing: a recv at
      end of file gives main's failure path the exit code 0. */
  predicate ExitsZero(o: Outcome) {
    || (Exchanged(o) && o.role == Some(0) && (o.failure == NoFailure ==> o.barrier == 0))
    || (Connected(o) && ToInt32(o.lengthMoved) == 0)
    || (Connected(o) && LengthCheck(o.lengthMoved, HEADER) && (o.client ==> o.malloc)
        && ToInt32(o.addressMoved) == 0 && o.addressLen != 0)
  }

  lemma ZeroExit(o: Outcome)
    requires !(Exchanged(o) && o.role.None?) && o.addressLen < TWO_31
    ensures ExitCode(o) == 0 <==> ExitsZero(o)
  {
  }

  /** The exit code by cases: no connection, a length or an address not moved whole, no memory, and then the
      role's result, or the barrier's after a role that returned 0 without failure emulation. */
  lemma ExitByCase(o: Outcome)
    ensures var connected := o.parsed && o.config && o.context && o.worker && o.query && o.connected;
            var lengthOk := (o.lengthMoved - 8) % 0x1_0000_0000 == 0;
            var addressOk := (o.addressMoved - o.addressLen) % 0x1_0000_0000 == 0;
            && (!connected ==> ExitCode(o) == -1)
            && (connected && !lengthOk ==> ExitCode(o) == ToInt32(o.lengthMoved) != 8)
            && (connected && lengthOk && o.client && !o.malloc ==> ExitCode(o) == 8)
            && (connected && lengthOk && (o.client ==> o.malloc) && !addressOk ==>
                  ExitCode(o) == ToInt32(o.addressMoved))
            && (Exchanged(o) <==> connected && lengthOk && (o.client ==> o.malloc) && addressOk)
            && (Exchanged(o) && o.role.Some? ==>
                  ExitCode(o) == if o.role.value == 0 && o.failure == NoFailure then o.barrier else o.role.value)
  {
    LengthCheckIs(o.lengthMoved, 8);
    LengthCheckIs(o.addressMoved, o.addressLen);
    ToInt32Identity(8);
    hide LengthCheck, ToInt32;
    LengthIsEight(o);
  }

  lemma LengthIsEight(o: Outcome)
    ensures LengthCheck(o.lengthMoved, 8) <==> ToInt32(o.lengthMoved) == 8
  {
    ToInt32Identity(8);
  }

  predicate EndsWith(log: seq<Event>, tail: seq<Event>) {
    |tail| <= |log| && log[|log| - |tail|..] == tail
  }

  lemma TornDown(start: seq<Event>)
    ensures EndsWith(start + [Use(Worker), Release(Address), Release(Worker), Release(Context)],
                     [Use(Worker), Release(Address), Release(Worker), Release(Context)])
    ensures var log := start + [Release(PeerAddr), Use(Worker), Release(Address), Release(Worker), Release(Context)];
            && EndsWith(log, [Use(Worker), Release(Address), Release(Worker), Release(Context)])
            && EndsWith(log, [Release(PeerAddr), Use(Worker), Release(Address), Release(Worker), Release(Context)])
  {
  }

  class Program {
    var log: seq<Event>
    ghost var held: set<Resource>
    ghost var taken: set<Resource>
    /** peer_addr is not NULL. */
    var peerAddr: bool

    ghost predicate Valid()
      reads this
    {
      && held == Held(log) && held <= taken && Disciplined(log) && (peerAddr <==> PeerAddr in held)
      && forall r :: Acquire(r) in log <==> r in taken
    }

    constructor ()
      ensures Valid() && log == [] && held == {} && taken == {}
    {
      log, held, taken, peerAddr := [], {}, {}, false;
    }

    method Do(e: Event)
      requires Valid()
      requires if e.Acquire? then e.r !in taken else e.r in held
      requires e.Use? || Innermost(held, e.r)
      modifies this
      ensures Valid() && log == old(log) + [e]
      ensures taken == if e.Acquire? then old(taken) + {e.r} else old(taken)
      ensures held == match e
                      case Acquire(r) => old(held) + {r}
                      case Use(_) => old(held)
                      case Release(r) => old(held) - {r}
    {
      assert (log + [e])[..|log|] == log;
      log := log + [e];
      held := Held(log);
      taken := if e.Acquire? then taken + {e.r} else taken;
      peerAddr := if e.Use? || !e.r.PeerAddr? then peerAddr else e.Acquire?;
    }

    /** Everything up to the worker's address. Returns the label to leave by, 4 for none yet. */
    method Initialise(o: Outcome) returns (level: nat)
      requires Valid() && held == {} && taken == {}
      modifies this
      ensures Valid() && level <= 3
      ensures level == 3 <==> o.parsed && o.config && o.context && o.worker && o.query
      ensures held == HeldAt(level)
      ensures taken <= held + {Settings}
    {
      hide Held, Disciplined, LengthCheck;
      if !o.parsed || !o.config {
        return 0;
      }
      Do(Acquire(Settings));
      Do(Use(Settings));
      if o.context {
        Do(Acquire(Context));
      }
      Do(Release(Settings));
      if !o.context {
        return 0;
      }
      Do(Use(Context));
      if !o.worker {
        return 1;
      }
      Do(Acquire(Worker));
      Do(Use(Worker));
      if !o.query {
        return 2;
      }
      Do(Acquire(Address));
      return 3;
    }

    /** The client's receives or the server's sends. Returns the label to leave by and main's ret; on
        success both addresses are in place. */
    method Exchange(o: Outcome) returns (ok: bool, ret: int)
      requires Valid() && held == HeldAt(3) && taken <= held + {Settings}
      requires o.parsed && o.config && o.context && o.worker && o.query
      modifies this
      ensures Valid() && ok == Exchanged(o) && (!ok ==> ret == ExitCode(o))
      ensures held - {PeerAddr} == HeldAt(3) + if o.connected then {Socket} else {}
      ensures PeerAddr in held <==> o.client && o.connected && LengthCheck(o.lengthMoved, HEADER) && o.malloc
    {
      hide Held, Disciplined, LengthCheck;
      ret := -1;
      if !o.connected {
        return false, ret;
      }
      Do(Acquire(Socket));
      Do(Use(Socket));
      ret := ToInt32(o.lengthMoved);
      if !LengthCheck(o.lengthMoved, HEADER) {
        return false, ret;
      }
      if o.client {
        if !o.malloc {
          return false, ret;
        }
        Do(Acquire(PeerAddr));
        Do(Use(PeerAddr));
      } else {
        Do(Use(Address));
      }
      Do(Use(Socket));
      ret := ToInt32(o.addressMoved);
      ok := LengthCheck(o.addressMoved, o.addressLen);
    }

    /** The role function, then the barrier unless it failed or a failure was emulated, then close. */
    method Communicate(o: Outcome) returns (code: Option<int>)
      requires Valid() && Exchanged(o) && Socket in held && {Context, Worker, Address} <= held
      requires o.client ==> PeerAddr in held
      modifies this
      ensures Valid() && (code.None? <==> o.role.None?)
      ensures code.Some? ==> code.value == ExitCode(o) && held == old(held) - {Socket}
    {
      hide Held, Disciplined, LengthCheck;
      Do(Use(Worker));
      if o.client {
        Do(Use(Address));
        Do(Use(PeerAddr));
      }
      if o.role.None? {
        return None;
      }
      var ret := o.role.value;
      if ret == 0 && o.failure == NoFailure {
        Do(Use(Socket));
        Do(Use(Worker));
        ret := o.barrier;
      }
      Do(Release(Socket));
      return Some(ret);
    }

    /** The labels, each falling through to the next. free(NULL) at err_peer_addr releases nothing. */
    method Leave(level: nat)
      requires Valid() && level <= 4 && held - {PeerAddr, Socket} == HeldAt(if level == 4 then 3 else level)
      requires PeerAddr in held ==> level == 4
      modifies this
      ensures Valid() && held == old(held) * {Socket}
      ensures level >= 3 && PeerAddr !in old(held) ==>
                log == old(log) + [Use(Worker), Release(Address), Release(Worker), Release(Context)]
      ensures level >= 3 && PeerAddr in old(held) ==>
                log == old(log) + [Release(PeerAddr), Use(Worker), Release(Address), Release(Worker), Release(Context)]
      ensures level == 2 ==> log == old(log) + [Release(Worker), Release(Context)]
      ensures level == 1 ==> log == old(log) + [Release(Context)]
    {
      hide Held, Disciplined, LengthCheck;
      if level >= 4 && peerAddr {
        Do(Release(PeerAddr));
      }
      assert held == old(held) * {Socket} + HeldAt(if level >= 3 then 3 else level);
      if level >= 3 {
        Do(Use(Worker));
        Do(Release(Address));
      }
      assert held == old(held) * {Socket} + HeldAt(if level >= 2 then 2 else level);
      if level >= 2 {
        Do(Release(Worker));
      }
      assert held == old(held) * {Socket} + HeldAt(if level >= 1 then 1 else level);
      if level >= 1 {
        Do(Release(Context));
      }
    }

    /** main. At every exit each resource it acquired has been released exactly once, in reverse order and
        with no use afterwards, but for the socket: that is left open exactly when the address exchange
        failed after it was opened. */
    method RunMain(o: Outcome) returns (code: Option<int>)
      requires Valid() && log == []
      modifies this
      ensures Valid()
      ensures code.None? <==> Exchanged(o) && o.role.None?
      ensures code.Some? ==> code.value == ExitCode(o)
      ensures code.Some? && !(o.parsed && o.config && o.context && o.worker && o.query && o.connected) ==>
                code.value == -1
      ensures code.Some? && Connected(o) && (o.lengthMoved - 8) % 0x1_0000_0000 != 0 ==>
                code.value == ToInt32(o.lengthMoved)
      ensures code.Some? && Connected(o) && (o.lengthMoved - 8) % 0x1_0000_0000 == 0 && o.client && !o.malloc ==>
                code.value == 8
      ensures code.Some? && Connected(o) && (o.lengthMoved - 8) % 0x1_0000_0000 == 0 && (o.client ==> o.malloc) ==>
                (o.addressMoved - o.addressLen) % 0x1_0000_0000 != 0 ==> code.value == ToInt32(o.addressMoved)
      ensures code.Some? && Exchanged(o) ==>
                code.value == if o.role == Some(0) && o.failure == NoFailure then o.barrier else o.role.value
      ensures code.Some? && o.addressLen < TWO_31 ==> (code.value == 0 <==> ExitsZero(o))
      ensures code.Some? ==> Held(log) == if Connected(o) && !Exchanged(o) then {Socket} else {}
      ensures code.Some? && o.parsed && o.config && o.context && o.worker && o.query ==>
                EndsWith(log, [Use(Worker), Release(Address), Release(Worker), Release(Context)])
      ensures code.Some? && o.client && Connected(o) && LengthCheck(o.lengthMoved, 8) && o.malloc ==>
                EndsWith(log, [Release(PeerAddr), Use(Worker), Release(Address), Release(Worker), Release(Context)])
    {
      assert held == {} && taken == {};
      ExitByCase(o);
      if !(Exchanged(o) && o.role.None?) && o.addressLen < TWO_31 {
        ZeroExit(o);
      }
      hide ToInt32, ExitsZero, EndsWith, LengthCheck;
      var level := Initialise(o);
      code := Some(-1);
      if level == 3 {
        var ok, ret := Exchange(o);
        code := Some(ret);
        level := if o.client && !peerAddr then 3 else 4;
        if ok {
          code := Communicate(o);
          if code.None? {
            return;
          }
        }
      }
      ghost var last := log;
      Leave(level);
      TornDown(last);
    }
  }

  function HeldAt(level: nat): set<Resource> {
    if level == 0 then {} else if level == 1 then {Context} else if level == 2 then {Context, Worker}
    else {Context, Worker, Address}
  }
}
