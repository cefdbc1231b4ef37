/** The client's receive loop with the test mode as a parameter, and test_poll_wait: arming the worker,
    then sleeping on its descriptor, while events keep arriving at any point in between. */
module PollWait {
  import opened Wire

  datatype Event = Message | Failure | Other

  /** The worker: events it has not progressed yet, whether it is armed, whether its descriptor is
      readable, and what progress has made of the consumed events. */
  datatype Worker = Worker(pending: seq<Event>, armed: bool, readable: bool, queued: bool, epOk: bool)

  /** An event arrives. Only an armed worker makes its descriptor readable. */
  function Arrive(w: Worker, e: Event): Worker {
    w.(pending := w.pending + [e], readable := w.readable || w.armed)
  }

  function Arrivals(w: Worker, es: seq<Event>): Worker
    decreases |es|
  {
    if es == [] then w else Arrive(Arrivals(w, es[..|es| - 1]), es[|es| - 1])
  }

  /** ucp_worker_arm is busy while events are pending or the descriptor was signalled. */
  predicate Busy(w: Worker) {
    w.pending != [] || w.readable
  }

  function Arm(w: Worker): Worker {
    if Busy(w) then w.(readable := false, armed := false) else w.(armed := true)
  }

  /** ucp_worker_progress takes in the first n events: messages become visible to the probe, and a
      failure sets ep_status. */
  function Consume(w: Worker, n: nat): Worker
    decreases n
  {
    if n == 0 || w.pending == [] then w
    else
      var e := w.pending[0];
      Consume(w.(pending := w.pending[1..], queued := w.queued || e.Message?,
                          epOk := w.epOk && !e.Failure?), n - 1)
  }

  /** The worker after what arrives before four calls from pos on. */
  function AfterFour(w: Worker, script: seq<Env>, pos: nat): Worker
    requires pos + 4 <= |script|
  {
    var two := Arrivals(Arrivals(w, script[pos].arrivals), script[pos + 1].arrivals);
    Arrivals(Arrivals(two, script[pos + 2].arrivals), script[pos + 3].arrivals)
  }

  /** It is safe to sleep: the worker is armed, and whatever is pending has signalled the descriptor. */
  predicate Covered(w: Worker) {
    w.armed && (w.pending != [] ==> w.readable)
  }

  /** No arrival makes it unsafe, and a sleeper whose descriptor is still quiet has missed nothing. */
  lemma {:induction false} ArrivalsCovered(w: Worker, es: seq<Event>)
    ensures Covered(w) ==> Covered(Arrivals(w, es))
    ensures Covered(w) && !Arrivals(w, es).readable ==> es == [] && w.pending == []
    ensures Arrivals(w, es).queued == w.queued && Arrivals(w, es).epOk == w.epOk
    ensures Arrivals(w, es).pending == w.pending + es
    decreases |es|
  {
    if es == [] {
      assert w.pending + es == w.pending;
    } else {
      ArrivalsCovered(w, es[..|es| - 1]);
      assert w.pending + es == (w.pending + es[..|es| - 1]) + [es[|es| - 1]];
    }
  }

  /** No lost wakeup: with any arrivals before and after arming, arming is refused, or the sleeper's
      descriptor becomes readable, or nothing arrived at all. */
  lemma NoLostWakeup(w: Worker, before: seq<Event>, after: seq<Event>)
    ensures var armed := Arrivals(w, before);
            || (Busy(armed) && armed.pending == w.pending + before)
            || Arrivals(Arm(armed), after).readable
            || (w.pending == [] && before == [] && after == [] && Arrivals(Arm(armed), after).pending == [])
  {
    ArrivalsCovered(w, before);
    ArrivalsCovered(Arm(Arrivals(w, before)), after);
  }

  /** Progress that took in nothing changed neither the probe's answer nor ep_status. */
  lemma {:induction false} ConsumeNews(w: Worker, n: nat)
    decreases n
    ensures var k := if n < |w.pending| then n else |w.pending|;
            && Consume(w, n).pending == w.pending[k..]
            && (Consume(w, n).queued <==> w.queued || Message in w.pending[..k])
            && (Consume(w, n).epOk <==> w.epOk && Failure !in w.pending[..k])
  {
    if n > 0 && w.pending != [] {
      var k := if n < |w.pending| then n else |w.pending|;
      var e := w.pending[0];
      ConsumeNews(w.(pending := w.pending[1..], queued := w.queued || e.Message?,
                     epOk := w.epOk && !e.Failure?), n - 1);
      assert w.pending[..k] == [e] + w.pending[1..][..k - 1];
    }
  }

  datatype Mode = ProbeMode | WaitMode | EventFdMode

  /** One call as the environment answers it: what arrives before it, whether it succeeds, whether a
      signal interrupts it, how much progress takes in. */
  datatype Env = Env(arrivals: seq<Event>, ok: bool, interrupted: bool, taken: nat)

  datatype Status = Success | NoMessage | OtherError

  datatype Epoll = Ready | Interrupted | Broken

  datatype Outcome = Probed | Disconnected | WaitFailed

  // -------------------------------------------------------------------------------------------
  // What the calls of a script lead to
  // -------------------------------------------------------------------------------------------

  /** Result of a piece of code, the worker after it, and the script position it reached. */
  datatype Step<+T> = Step(r: Wait<T>, w: Worker, pos: nat)

  /** One epoll_wait: asleep until the descriptor is readable, a signal comes or the call fails. */
  function Woken(script: seq<Env>, w: Worker, pos: nat): (z: Step<Epoll>)
    requires pos <= |script|
    ensures pos <= z.pos <= |script| && (z.r.Got? && !z.r.value.Ready? ==> pos < z.pos)
    decreases |script| - pos
  {
    if w.readable then Step(Got(Ready), w, pos)
    else if pos == |script| then Step(Never, w, pos)
    else
      var v := Arrivals(w, script[pos].arrivals);
      if script[pos].interrupted then Step(Got(Interrupted), v, pos + 1)
      else if !script[pos].ok then Step(Got(Broken), v, pos + 1)
      else Woken(script, v, pos + 1)
  }

  /** epoll_wait, again after every signal. */
  function Slept(script: seq<Env>, w: Worker, pos: nat): (z: Step<Epoll>)
    requires pos <= |script|
    ensures pos <= z.pos <= |script| && z.r != Got(Interrupted)
    decreases |script| - pos
  {
    var z := Woken(script, w, pos);
    if z.r == Got(Interrupted) then Slept(script, z.w, z.pos) else z
  }

  /** Arming the worker and, unless it is busy, sleeping on it. */
  function ArmAndSleep(script: seq<Env>, w: Worker, pos: nat): (z: Step<Status>)
    requires pos <= |script|
    ensures pos <= z.pos <= |script| && (z.r.Got? ==> pos < z.pos)
  {
    if pos == |script| then Step(Never, w, pos)
    else
      var v := Arrivals(w, script[pos].arrivals);
      if Busy(v) then Step(Got(Success), Arm(v), pos + 1)
      else if !script[pos].ok then Step(Got(NoMessage), v, pos + 1)
      else
        var z := Slept(script, Arm(v), pos + 1);
        Step(if z.r.Never? then Never else Got(Success), z.w, z.pos)
  }

  /** The records from pos on answer ucp_worker_get_efd, epoll_create, epoll_ctl and what follows. */
  function Polled(script: seq<Env>, w: Worker, pos: nat): (z: Step<Status>)
    requires pos <= |script|
    ensures pos <= z.pos <= |script| && (z.r.Got? ==> pos < z.pos)
  {
    if pos == |script| then Step(Never, w, pos)
    else
      var v := Arrivals(w, script[pos].arrivals);
      if !script[pos].ok then Step(Got(NoMessage), v, pos + 1)
      else if pos + 1 == |script| then Step(Never, v, pos + 1)
      else
        var created := Arrivals(v, script[pos + 1].arrivals);
        if pos + 2 == |script| then Step(Never, created, pos + 2)
        else
          var added := Arrivals(created, script[pos + 2].arrivals);
          if !script[pos + 1].ok || !script[pos + 2].ok then Step(Got(NoMessage), added, pos + 3)
          else ArmAndSleep(script, added, pos + 3)
  }

  /** ucp_worker_wait. */
  function Waited(script: seq<Env>, w: Worker, pos: nat): (z: Step<bool>)
    requires pos <= |script|
    ensures pos <= z.pos <= |script|
    decreases |script| - pos
  {
    if w.pending != [] then Step(Got(true), w, pos)
    else if pos == |script| then Step(Never, w, pos)
    else
      var v := Arrivals(w, script[pos].arrivals);
      if !script[pos].ok then Step(Got(false), v, pos + 1) else Waited(script, v, pos + 1)
  }

  /** The receive loop: check, probe, progress, and sleep only after a pass that took in nothing. */
  function Received(mode: Mode, script: seq<Env>, w: Worker, pos: nat): (z: Step<Outcome>)
    requires pos <= |script|
    decreases |script| - pos
  {
    if !w.epOk then Step(Got(Disconnected), w, pos)
    else if w.queued then Step(Got(Probed), w, pos)
    else if pos == |script| then Step(Never, w, pos)
    else
      var v := Arrivals(w, script[pos].arrivals);
      var x := Consume(v, script[pos].taken);
      if mode.ProbeMode? || (script[pos].taken > 0 && v.pending != []) then Received(mode, script, x, pos + 1)
      else if mode.WaitMode? then
        var z := Waited(script, x, pos + 1);
        if z.r.Never? then Step(Never, z.w, z.pos)
        else if !z.r.value then Step(Got(WaitFailed), z.w, z.pos)
        else Received(mode, script, z.w, z.pos)
      else
        var z := Polled(script, x, pos + 1);
        if z.r.Never? then Step(Never, z.w, z.pos)
        else if !z.r.value.Success? then Step(Got(WaitFailed), z.w, z.pos)
        else Received(mode, script, z.w, z.pos)
  }

  lemma {:induction false} WokenOrNothing(script: seq<Env>, w: Worker, pos: nat)
    requires pos <= |script| && Covered(w)
    ensures var z := Woken(script, w, pos);
            && Covered(z.w)
            && (z.r.Never? ==> z.w.pending == [] && z.pos == |script|)
            && (z.w.pending == [] ==> w.pending == [] && forall k :: pos <= k < z.pos ==> script[k].arrivals == [])
    decreases |script| - pos
  {
    if !w.readable && pos < |script| {
      ArrivalsCovered(w, script[pos].arrivals);
      WokenOrNothing(script, Arrivals(w, script[pos].arrivals), pos + 1);
    }
  }

  /** Who sleeps for ever on an armed worker missed nothing, however often signals woke it: nothing was
      pending when it fell asleep, and nothing ever arrived after. */
  lemma {:induction false} SleptForNothing(script: seq<Env>, w: Worker, pos: nat)
    requires pos <= |script| && Covered(w) && Slept(script, w, pos).r.Never?
    ensures w.pending == [] && forall k :: pos <= k < |script| ==> script[k].arrivals == []
    decreases |script| - pos
  {
    var z := Woken(script, w, pos);
    WokenOrNothing(script, w, pos);
    if z.r == Got(Interrupted) {
      SleptForNothing(script, z.w, z.pos);
    }
  }

  // The probing loop, by what each of its passes takes in.

  /** The events that the passes from pos on take in, pass by pass. */
  function Batches(script: seq<Env>, pending: seq<Event>, pos: nat): seq<seq<Event>>
    requires pos <= |script|
    decreases |script| - pos
  {
    if pos == |script| then []
    else
      var all := pending + script[pos].arrivals;
      var n := if script[pos].taken < |all| then script[pos].taken else |all|;
      [all[..n]] + Batches(script, all[n..], pos + 1)
  }

  predicate News(batch: seq<Event>) {
    Message in batch || Failure in batch
  }

  /** The first pass that takes in a message or a failure, |bs| if none does. */
  function FirstNews(bs: seq<seq<Event>>): (k: nat)
    ensures k <= |bs|
  {
    if bs == [] || News(bs[0]) then 0 else 1 + FirstNews(bs[1..])
  }

  lemma {:induction false} FirstNewsIs(bs: seq<seq<Event>>)
    ensures FirstNews(bs) < |bs| ==> News(bs[FirstNews(bs)])
    ensures forall j :: 0 <= j < FirstNews(bs) ==> !News(bs[j])
  {
    if bs != [] && !News(bs[0]) {
      FirstNewsIs(bs[1..]);
      hide News;
    }
  }

  /** One pass of the probing loop. */
  lemma OnePass(script: seq<Env>, w: Worker, pos: nat) returns (x: Worker)
    requires pos < |script| && w.epOk && !w.queued
    ensures Received(ProbeMode, script, w, pos) == Received(ProbeMode, script, x, pos + 1)
    ensures var bs := Batches(script, w.pending, pos);
            && |bs| > 0 && bs[1..] == Batches(script, x.pending, pos + 1)
            && (x.queued <==> Message in bs[0]) && (x.epOk <==> Failure !in bs[0])
  {
    hide Arrivals, Consume;
    var v := Arrivals(w, script[pos].arrivals);
    ArrivalsCovered(w, script[pos].arrivals);
    ConsumeNews(v, script[pos].taken);
    x := Consume(v, script[pos].taken);
  }

  /** The probing loop ends after the first pass that takes in a message or a failure, and a failure in that
      pass wins, also over a message that came before it; without such a pass it goes on for ever. */
  lemma {:induction false} ProbeDecided(script: seq<Env>, w: Worker, pos: nat)
    requires pos <= |script| && w.epOk && !w.queued
    ensures var bs := Batches(script, w.pending, pos);
            var k := FirstNews(bs);
            Received(ProbeMode, script, w, pos).r ==
            if k == |bs| then Never else if Failure in bs[k] then Got(Disconnected) else Got(Probed)
    decreases |script| - pos
  {
    if pos < |script| {
      hide Batches, News, Received;
      var x := OnePass(script, w, pos);
      var bs := Batches(script, w.pending, pos);
      if News(bs[0]) {
        EndsAt(script, x, pos + 1, bs[0]);
      } else {
        QuietBatch(bs[0]);
        ProbeDecided(script, x, pos + 1);
      }
    }
  }

  lemma QuietBatch(batch: seq<Event>)
    requires !News(batch)
    ensures Message !in batch && Failure !in batch
  {
  }

  lemma EndsAt(script: seq<Env>, x: Worker, pos: nat, batch: seq<Event>)
    requires pos <= |script| && News(batch) && (x.queued <==> Message in batch) && (x.epOk <==> Failure !in batch)
    ensures Received(ProbeMode, script, x, pos).r == if Failure in batch then Got(Disconnected) else Got(Probed)
  {
  }

  /** Events taken one at a time: a message before any failure is probed, given passes enough to reach it. */
  lemma {:induction false} MessageFirst(script: seq<Env>, w: Worker, pos: nat, m: nat)
    requires pos <= |script| && w.epOk && !w.queued && m < |w.pending| && pos + m < |script|
    requires w.pending[m].Message? && forall i :: 0 <= i < m ==> w.pending[i].Other?
    requires forall i :: pos <= i < |script| ==> script[i].taken == 1
    ensures Received(ProbeMode, script, w, pos).r == Got(Probed)
    decreases m
  {
    var v := Arrivals(w, script[pos].arrivals);
    ArrivalsCovered(w, script[pos].arrivals);
    ConsumeNews(v, 1);
    var x := Consume(v, 1);
    assert v.pending[..1] == [w.pending[0]];
    if m > 0 {
      assert forall i :: 0 <= i < m ==> x.pending[i] == w.pending[i + 1];
      MessageFirst(script, x, pos + 1, m - 1);
    }
  }

  /** A message and a failure taken in by one pass: the message is lost, whichever came first. */
  lemma BothAtOnce(after: seq<Env>)
    ensures var one := Env([Message, Failure], true, false, 2);
            Received(ProbeMode, [one] + after, Worker([], false, false, false, true), 0).r == Got(Disconnected)
  {
    var w := Worker([], false, false, false, true);
    ArrivalsCovered(w, [Message, Failure]);
    ConsumeNews(Arrivals(w, [Message, Failure]), 2);
  }

  class Client {
    const script: seq<Env>
    var pos: nat
    var w: Worker
    var asleep: bool
    /** Open epoll descriptors, and how often close was called on one. */
    var open: set<nat>
    var created: nat
    var closed: nat

    ghost predicate Valid()
      reads this
    {
      pos <= |script| && closed + |open| == created && (forall fd :: fd in open ==> fd < created)
    }

    constructor (script: seq<Env>)
      ensures Valid() && pos == 0 && !asleep && open == {} && created == 0 && this.script == script
      ensures w == Worker([], false, false, false, true)
    {
      this.script, pos, asleep, open, created, closed := script, 0, false, {}, 0, 0;
      w := Worker([], false, false, false, true);
    }

    /** A call: events arrive, then the environment answers; a script that ends never answers. */
    method Call() returns (e: Wait<Env>)
      requires Valid()
      modifies this`pos, this`w
      ensures Valid() && w.queued == old(w.queued) && w.epOk == old(w.epOk) && (Covered(old(w)) ==> Covered(w))
      ensures e.Never? ==> pos == |script| && w == old(w) && pos == old(pos)
      ensures e.Got? ==> pos == old(pos) + 1 && e.value == script[old(pos)] && w == Arrivals(old(w), e.value.arrivals)
    {
      if pos == |script| {
        return Never;
      }
      e := Got(script[pos]);
      ArrivalsCovered(w, e.value.arrivals);
      w := Arrivals(w, e.value.arrivals);
      pos := pos + 1;
    }

    /** Sleeps until the descriptor is readable, a signal comes or the call fails. */
    method EpollWait() returns (r: Wait<Epoll>)
      requires Valid() && Covered(w) && !asleep
      modifies this`pos, this`w, this`asleep
      ensures Valid() && w.queued == old(w.queued) && w.epOk == old(w.epOk) && Covered(w) && asleep == r.Never?
      ensures r.Never? ==> pos == |script| && w.pending == []
      ensures Step(r, w, pos) == Woken(script, old(w), old(pos))
      ensures old(pos) <= pos && (r == Got(Ready) ==> w.readable)
      ensures r.Got? && !r.value.Ready? ==>
                old(pos) < pos && if r.value.Interrupted? then script[pos - 1].interrupted
                                  else !script[pos - 1].interrupted && !script[pos - 1].ok
    {
      while !w.readable
        invariant Valid() && !asleep && w.queued == old(w.queued) && w.epOk == old(w.epOk) && Covered(w)
        invariant Woken(script, w, pos) == Woken(script, old(w), old(pos)) && old(pos) <= pos
        decreases |script| - pos
      {
        asleep := true;
        var e :- Call();
        asleep := false;
        if e.interrupted {
          return Got(Interrupted);
        }
        if !e.ok {
          return Got(Broken);
        }
      }
      return Got(Ready);
    }

    /** do { epoll_wait } while it was interrupted by a signal. */
    method Sleep() returns (r: Wait<Epoll>)
      requires Valid() && Covered(w) && !asleep
      modifies this`pos, this`w, this`asleep
      ensures Valid() && w.queued == old(w.queued) && w.epOk == old(w.epOk) && asleep == r.Never?
      ensures r.Never? ==> pos == |script| && w.pending == []
      ensures Step(r, w, pos) == Slept(script, old(w), old(pos))
      ensures old(pos) <= pos && r != Got(Interrupted) && (r == Got(Ready) ==> w.readable)
      ensures r == Got(Broken) ==> old(pos) < pos && !script[pos - 1].interrupted && !script[pos - 1].ok
    {
      var result := Interrupted;
      while result.Interrupted?
        invariant Valid() && Covered(w) && !asleep && w.queued == old(w.queued) && w.epOk == old(w.epOk)
        invariant Slept(script, old(w), old(pos)) ==
                  if result.Interrupted? then Slept(script, w, pos) else Step(Got(result), w, pos)
        invariant old(pos) <= pos && (result.Ready? ==> w.readable)
        invariant result.Broken? ==> old(pos) < pos && !script[pos - 1].interrupted && !script[pos - 1].ok
        decreases |script| - pos, result.Interrupted?
      {
        result :- EpollWait();
      }
      return Got(result);
    }

    /** close(epoll_fd_local): a failed epoll_create left nothing to close. */
    method CloseLocal(local: Option<nat>)
      requires Valid() && (local.Some? ==> local.value in open)
      modifies this`open, this`closed
      ensures Valid() && open == (if local.Some? then old(open) - {local.value} else old(open))
      ensures closed == old(closed) + (if local.Some? then 1 else 0)
    {
      if local.Some? {
        open := open - {local.value};
        closed := closed + 1;
      }
    }

    method EpollCreate() returns (local: Wait<Option<nat>>)
      requires Valid()
      modifies this`pos, this`w, this`open, this`created
      ensures Valid() && w.queued == old(w.queued) && w.epOk == old(w.epOk)
      ensures local.Never? ==> pos == old(pos) == |script| && w == old(w)
      ensures local.Got? ==>
                && pos == old(pos) + 1 && w == Arrivals(old(w), script[old(pos)].arrivals)
                && (local.value.Some? <==> script[old(pos)].ok)
      ensures local == Got(None) ==> open == old(open) && created == old(created)
      ensures local.Got? && local.value.Some? ==>
                && local.value.value !in old(open) && open == old(open) + {local.value.value}
                && created == old(created) + 1
    {
      var create :- Call();
      if !create.ok {
        return Got(None);
      }
      local := Got(Some(created));
      open := open + {created};
      created := created + 1;
    }

    /** ucp_worker_arm and the sleep, with the local descriptor open. */
    method ArmAndWait() returns (r: Wait<Status>)
      requires Valid() && !asleep
      modifies this`pos, this`w, this`asleep
      ensures Valid() && w.queued == old(w.queued) && w.epOk == old(w.epOk)
      ensures asleep ==> r.Never? && w.pending == []
      ensures r.Never? ==> pos == |script|
      ensures Step(r, w, pos) == ArmAndSleep(script, old(w), old(pos))
      ensures old(pos) <= pos && (r.Got? ==> old(pos) < pos)
      ensures r.Got? ==>
                var busy := Arrivals(old(w), script[old(pos)].arrivals);
                r.value == if busy.pending != [] || busy.readable || script[old(pos)].ok then Success else NoMessage
      ensures r.Got? && pos > old(pos) + 1 && !w.readable ==> !script[pos - 1].interrupted && !script[pos - 1].ok
    {
      var arm :- Call();
      if Busy(w) {
        w := Arm(w);
        return Got(Success);
      }
      if !arm.ok {
        return Got(NoMessage);
      }
      w := Arm(w);
      var woken :- Sleep();
      assert woken.Ready? || woken.Broken?;
      return Got(Success);
    }

    /** test_poll_wait. It never sleeps on while an event is pending, and the descriptor it creates is
        closed on every path that returns. */
    method TestPollWait() returns (r: Wait<Status>)
      requires Valid() && !asleep
      modifies this
      ensures Valid() && w.queued == old(w.queued) && w.epOk == old(w.epOk)
      ensures r.Got? ==> open == old(open) && created - old(created) == closed - old(closed)
      ensures asleep ==> r.Never? && w.pending == []
      ensures r.Never? ==> pos == |script|
      ensures Step(r, w, pos) == Polled(script, old(w), old(pos))
      ensures old(pos) <= pos && (r.Got? ==> old(pos) < pos)
      ensures r.Got? && !script[old(pos)].ok ==> r.value == NoMessage && pos == old(pos) + 1
      ensures r.Got? && script[old(pos)].ok ==> old(pos) + 3 <= pos
      ensures r.Got? && script[old(pos)].ok && !(script[old(pos) + 1].ok && script[old(pos) + 2].ok) ==>
                r.value == NoMessage && pos == old(pos) + 3
      ensures r.Got? && script[old(pos)].ok && script[old(pos) + 1].ok && script[old(pos) + 2].ok ==>
                && old(pos) + 4 <= pos
                && var busy := AfterFour(old(w), script, old(pos));
                   r.value == if busy.pending != [] || busy.readable || script[old(pos) + 3].ok then Success
                              else NoMessage
    {
      hide Arrivals, ArmAndSleep;
      var efd :- Call();
      if !efd.ok {
        return Got(NoMessage);
      }
      var local :- EpollCreate();
      var ctl :- Call();
      if local.None? || !ctl.ok {
        CloseLocal(local);
        return Got(NoMessage);
      }
      var ret :- ArmAndWait();
      CloseLocal(local);
      return Got(ret);
    }

    /** ucp_worker_wait: returns at once with events pending, else sleeps until one comes. */
    method WorkerWait() returns (r: Wait<bool>)
      requires Valid() && !asleep
      modifies this`pos, this`w, this`asleep
      ensures Valid() && w.queued == old(w.queued) && w.epOk == old(w.epOk) && (asleep <==> r.Never?)
      ensures r.Never? ==> pos == |script| && w.pending == []
      ensures Step(r, w, pos) == Waited(script, old(w), old(pos))
      ensures old(pos) <= pos && (r == Got(true) ==> w.pending != [])
      ensures r == Got(false) ==> old(pos) < pos && !script[pos - 1].ok
    {
      while w.pending == []
        invariant Valid() && !asleep && w.queued == old(w.queued) && w.epOk == old(w.epOk)
        invariant Waited(script, w, pos) == Waited(script, old(w), old(pos)) && old(pos) <= pos
        decreases |script| - pos
      {
        asleep := true;
        var e :- Call();
        asleep := false;
        if !e.ok {
          return Got(false);
        }
      }
      return Got(true);
    }

    /** The receive loop of runUcxClient. It ends with a probed message, a failed endpoint or a failed
        wait, and leaves no descriptor behind. In the probing mode it never sleeps. When it sleeps in one
        of the other modes and is never woken, then nothing was there to wake it: no event is pending,
        no message it has not probed was taken in, and the endpoint did not fail. */
    method Receive(mode: Mode) returns (r: Wait<Outcome>)
      requires Valid() && !asleep
      modifies this
      ensures Valid()
      ensures Step(r, w, pos) == Received(mode, script, old(w), old(pos))
      ensures r.Got? ==> open == old(open) && created - old(created) == closed - old(closed)
      ensures r.Never? ==> pos == |script| && !w.queued && w.epOk
      ensures asleep ==> r.Never? && !mode.ProbeMode? && w.pending == []
      ensures r.Got? ==>
                && (r.value == Disconnected <==> !w.epOk)
                && (r.value == Probed <==> w.epOk && w.queued)
                && (r.value == WaitFailed <==> w.epOk && !w.queued)
      ensures r == Got(WaitFailed) ==> !mode.ProbeMode? && exists k :: old(pos) < k < pos && !script[k].ok
    {
      hide Polled, Waited, Consume, Arrivals;
      while true
        invariant Valid() && !asleep && open == old(open) && created - old(created) == closed - old(closed)
        invariant Received(mode, script, w, pos) == Received(mode, script, old(w), old(pos)) && old(pos) <= pos
        decreases |script| - pos
      {
        if !w.epOk {
          return Got(Disconnected);
        }
        if w.queued {
          return Got(Probed);
        }
        var pass :- Call();
        ConsumeNews(w, pass.taken);
        var events := if pass.taken < |w.pending| then pass.taken else |w.pending|;
        w := Consume(w, pass.taken);
        if events > 0 {
          continue;
        }
        if mode.WaitMode? {
          var ok :- WorkerWait();
          if !ok {
            return Got(WaitFailed);
          }
        } else if mode.EventFdMode? {
          var status :- TestPollWait();
          if !status.Success? {
            return Got(WaitFailed);
          }
        }
      }
    }
  }
}
