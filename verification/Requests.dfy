/** The UCX request pool and the three ways the program waits on a request. UCX initialises a request
    once, with request_init, and recycles it without touching the `completed` flag again: only
    ucx_wait clears it. */
module Requests {
  import opened Wire

  /** Sends and receives carry a handler that sets `completed`; flush and close carry none. */
  datatype Op = WithHandler | Polled

  datatype Status = InProgress | Finished(code: int)

  datatype Use = Use(serial: nat, op: Op, status: Status)

  datatype Slot = Slot(completed: bool, use: Option<Use>)

  /** The history of one posted operation: its request, how it ended, how often its request was freed
      and what the waiter read from it. */
  datatype Record = Record(slot: nat, ended: Option<int>, frees: nat, read: Option<Status>)

  datatype Pool = Pool(slots: seq<Slot>, calls: seq<Record>) {
    predicate InUse(k: nat) {
      k < |slots| && slots[k].use.Some? && slots[k].use.value.serial < |calls|
    }

    function UseOf(k: nat): Use
      requires InUse(k)
    {
      slots[k].use.value
    }

    function WithSlot(k: nat, s: Slot): Pool
      requires k < |slots|
    {
      this.(slots := slots[k := s])
    }
  }

  /** UCX allocates a request: request_init runs, for the only time. */
  function Grow(p: Pool): Pool {
    p.(slots := p.slots + [Slot(false, None)])
  }

  /** A call takes a free request; its flag stays as it is. */
  function Post(p: Pool, k: nat, op: Op): Pool
    requires k < |p.slots|
  {
    p.WithSlot(k, p.slots[k].(use := Some(Use(|p.calls|, op, InProgress))))
    .(calls := p.calls + [Record(k, None, 0, None)])
  }

  predicate CanFinish(p: Pool, k: nat) {
    p.InUse(k) && p.UseOf(k).status.InProgress?
  }

  /** The operation ends inside a progress call; send_handler or recv_handler sets the flag. */
  function Finish(p: Pool, k: nat, code: int): Pool
    requires CanFinish(p, k)
  {
    var use := p.UseOf(k);
    p.WithSlot(k, Slot(p.slots[k].completed || use.op.WithHandler?, Some(use.(status := Finished(code)))))
    .(calls := p.calls[use.serial := p.calls[use.serial].(ended := Some(code))])
  }

  function Reset(p: Pool, k: nat): Pool
    requires p.InUse(k)
  {
    p.WithSlot(k, p.slots[k].(completed := false))
  }

  /** ucp_request_check_status, then ucp_request_free. */
  function Release(p: Pool, k: nat): Pool
    requires p.InUse(k)
  {
    var n := p.UseOf(k).serial;
    p.WithSlot(k, p.slots[k].(use := None))
    .(calls := p.calls[n := p.calls[n].(frees := p.calls[n].frees + 1, read := Some(p.UseOf(k).status))])
  }

  datatype Action = DoGrow | DoPost(k: nat, op: Op) | DoFinish(k: nat, code: int) | DoWait(k: nat) | DoPoll(k: nat)

  /** The pool under any mix of calls, completions and waits. A wait acts when its own loop would end:
      ucx_wait looks at the flag alone, flush_ep and ep_close at the status alone. */
  function Next(p: Pool, a: Action): Pool {
    match a
    case DoGrow => Grow(p)
    case DoPost(k, op) => if k < |p.slots| && p.slots[k].use.None? then Post(p, k, op) else p
    case DoFinish(k, code) => if CanFinish(p, k) then Finish(p, k, code) else p
    case DoWait(k) =>
      if p.InUse(k) && p.UseOf(k).op.WithHandler? && p.slots[k].completed then Release(Reset(p, k), k) else p
    case DoPoll(k) =>
      if p.InUse(k) && p.UseOf(k).op.Polled? && p.UseOf(k).status.Finished? then Release(p, k) else p
  }

  function Run(acts: seq<Action>): Pool
    decreases |acts|
  {
    if acts == [] then Pool([], []) else Next(Run(acts[..|acts| - 1]), acts[|acts| - 1])
  }

  /** The flag of a free request is clear, and that of a used one says whether its handler ran. */
  predicate SlotOk(p: Pool, k: nat)
    requires k < |p.slots|
  {
    && (p.slots[k].use.Some? ==> p.InUse(k) && p.calls[p.UseOf(k).serial].slot == k)
    && (p.slots[k].completed <==>
          p.InUse(k) && p.UseOf(k).op.WithHandler? && p.UseOf(k).status.Finished?)
  }

  predicate Holds(p: Pool, n: nat)
    requires n < |p.calls|
  {
    p.InUse(p.calls[n].slot) && p.UseOf(p.calls[n].slot).serial == n
  }

  /** A posted operation still holds its request, which was not freed; or it ended, its request was freed
      once, and the waiter read the status it ended with. */
  predicate RecordOk(p: Pool, n: nat)
    requires n < |p.calls|
  {
    var c := p.calls[n];
    if Holds(p, n) then
      c.frees == 0 && c.read == None
      && p.UseOf(c.slot).status == (if c.ended.Some? then Finished(c.ended.value) else InProgress)
    else c.frees == 1 && c.ended.Some? && c.read == Some(Finished(c.ended.value))
  }

  predicate PoolOk(p: Pool) {
    && (forall k :: 0 <= k < |p.slots| ==> SlotOk(p, k))
    && (forall n :: 0 <= n < |p.calls| ==> RecordOk(p, n))
  }

  lemma NextOk(p: Pool, a: Action)
    requires PoolOk(p)
    ensures PoolOk(Next(p, a))
  {
    var q := Next(p, a);
    assert !a.DoGrow? && a.k < |p.slots| ==> SlotOk(p, a.k);
    forall k | 0 <= k < |q.slots|
      ensures SlotOk(q, k)
    {
      assert k < |p.slots| ==> SlotOk(p, k);
    }
    forall n | 0 <= n < |q.calls|
      ensures RecordOk(q, n)
    {
      assert n < |p.calls| ==> RecordOk(p, n);
    }
  }

  /** Over any sequence of operations, completions and waits the free requests have a clear flag; a request
      handed out is still held, or was freed once, after its operation ended. */
  lemma {:induction false} RunOk(acts: seq<Action>)
    ensures PoolOk(Run(acts))
    decreases |acts|
  {
    if acts != [] {
      RunOk(acts[..|acts| - 1]);
      NextOk(Run(acts[..|acts| - 1]), acts[|acts| - 1]);
    }
  }

  /** Every request is back in the pool. */
  predicate Settled(p: Pool) {
    PoolOk(p) && forall k :: 0 <= k < |p.slots| ==> !p.InUse(k)
  }

  /** Request k is out, for an operation that has not ended, and is the only one. */
  predicate Serving(p: Pool, k: nat, op: Op) {
    && PoolOk(p) && CanFinish(p, k) && p.UseOf(k).op == op
    && forall j :: 0 <= j < |p.slots| && j != k ==> !p.InUse(j)
  }

  /** Exactly once: with every request back in the pool, each operation that was ever posted has ended,
      its request was freed once, and the waiter read the status it ended with. */
  lemma SettledFreedOnce(p: Pool, n: nat)
    requires Settled(p) && n < |p.calls|
    ensures p.calls[n].frees == 1 && p.calls[n].ended.Some? && p.calls[n].read == Some(Finished(p.calls[n].ended.value))
  {
    assert RecordOk(p, n);
  }

  /** A call takes request k, new or recycled. */
  function Begin(p: Pool, k: nat, op: Op): Pool
    requires k <= |p.slots|
  {
    Post(if k == |p.slots| then Grow(p) else p, k, op)
  }

  lemma BeginServes(p: Pool, k: nat, op: Op)
    requires Settled(p) && k <= |p.slots|
    ensures Serving(Begin(p, k, op), k, op)
  {
    var grown := if k == |p.slots| then Grow(p) else p;
    if k == |p.slots| {
      NextOk(p, DoGrow);
    }
    forall j | 0 <= j < |grown.slots|
      ensures grown.slots[j].use.None?
    {
      assert j < |p.slots| ==> SlotOk(p, j);
    }
    NextOk(grown, DoPost(k, op));
  }

  /** The operation ends, and its waiter clears the flag, reads the status and frees the request. */
  function End(p: Pool, k: nat, code: int): Pool
    requires CanFinish(p, k)
  {
    var ended := Finish(p, k, code);
    if p.UseOf(k).op.WithHandler? then Next(ended, DoWait(k)) else Next(ended, DoPoll(k))
  }

  lemma EndSettles(p: Pool, k: nat, op: Op, code: int)
    requires Serving(p, k, op)
    ensures Settled(End(p, k, code)) && |End(p, k, code).calls| == |p.calls|
    ensures var n := p.UseOf(k).serial; End(p, k, code).calls[n].read == Some(Finished(code))
  {
    assert SlotOk(p, k) && RecordOk(p, p.UseOf(k).serial);
    NextOk(p, DoFinish(k, code));
    var ended := Finish(p, k, code);
    assert SlotOk(ended, k);
    NextOk(ended, DoWait(k));
    NextOk(ended, DoPoll(k));
    forall j | 0 <= j < |p.slots|
      ensures End(p, k, code).slots[j].use.None?
    {
      assert SlotOk(p, j);
    }
  }

  // -------------------------------------------------------------------------------------------
  // The waiting code
  // -------------------------------------------------------------------------------------------

  /** What a non-blocking UCX call returns. */
  datatype Handle = Null | Error(code: int) | Ptr(slot: nat)

  /** One progress call: the operations it completes, in order, with their codes. */
  type Batch = seq<(nat, int)>

  function Progress(p: Pool, batch: Batch): Pool
    decreases |batch|
  {
    if batch == [] then p
    else Next(Progress(p, batch[..|batch| - 1]), DoFinish(batch[|batch| - 1].0, batch[|batch| - 1].1))
  }

  function Progressed(p: Pool, passes: seq<Batch>): Pool
    decreases |passes|
  {
    if passes == [] then p else Progress(Progressed(p, passes[..|passes| - 1]), passes[|passes| - 1])
  }

  /** The request is still with the same operation. */
  predicate SameUse(p: Pool, q: Pool, k: nat) {
    && p.InUse(k) && q.InUse(k)
    && q.UseOf(k).serial == p.UseOf(k).serial && q.UseOf(k).op == p.UseOf(k).op
    && (p.UseOf(k).status.Finished? ==> q.UseOf(k).status == p.UseOf(k).status)
  }

  lemma {:induction false} ProgressKeeps(p: Pool, batch: Batch, k: nat)
    requires PoolOk(p) && p.InUse(k)
    ensures PoolOk(Progress(p, batch)) && SameUse(p, Progress(p, batch), k)
    decreases |batch|
  {
    if batch != [] {
      var last := |batch| - 1;
      ProgressKeeps(p, batch[..last], k);
      NextOk(Progress(p, batch[..last]), DoFinish(batch[last].0, batch[last].1));
      hide PoolOk;
    }
  }

  /** From p, where only request k is out, the pool came to q: nothing happened, or k's operation ended. */
  predicate AtMostEnded(p: Pool, q: Pool, k: nat)
    requires CanFinish(p, k)
  {
    q == p || (q.InUse(k) && q.UseOf(k).status.Finished? && q == Finish(p, k, q.UseOf(k).status.code))
  }

  /** While one request is out, progress can do no more than end its operation. */
  lemma {:induction false} ProgressAlone(p: Pool, q: Pool, batch: Batch, k: nat, op: Op)
    requires Serving(p, k, op) && AtMostEnded(p, q, k)
    ensures AtMostEnded(p, Progress(q, batch), k)
    decreases |batch|
  {
    if batch != [] {
      var last := batch[|batch| - 1];
      ProgressAlone(p, q, batch[..|batch| - 1], k, op);
      assert last.0 < |p.slots| && last.0 != k ==> !p.InUse(last.0);
    }
  }

  class Worker {
    var pool: Pool
    const passes: seq<Batch>
    var pos: nat

    ghost predicate Valid()
      reads this
    {
      PoolOk(pool) && pos <= |passes|
    }

    constructor (passes: seq<Batch>)
      ensures Valid() && pool == Pool([], []) && pos == 0 && this.passes == passes
    {
      this.passes, pool, pos := passes, Pool([], []), 0;
    }

    /** A non-blocking call that UCX serves with a new request, initialised once, or with a recycled one. */
    method Start(op: Op, recycled: Option<nat>) returns (h: Handle)
      requires Valid() && (recycled.Some? ==> recycled.value < |pool.slots| && pool.slots[recycled.value].use.None?)
      modifies this`pool
      ensures Valid() && h == Ptr(if recycled.Some? then recycled.value else |old(pool).slots|)
      ensures pool == Post(if recycled.Some? then old(pool) else Grow(old(pool)), h.slot, op)
      ensures pool.InUse(h.slot) && pool.UseOf(h.slot) == Use(|old(pool).calls|, op, InProgress)
    {
      if recycled.Some? {
        h := Ptr(recycled.value);
      } else {
        NextOk(pool, DoGrow);
        h := Ptr(|pool.slots|);
        pool := Grow(pool);
      }
      NextOk(pool, DoPost(h.slot, op));
      pool := Post(pool, h.slot, op);
    }

    /** ucp_worker_progress. */
    method ProgressOnce()
      requires Valid() && pos < |passes|
      modifies this`pool, this`pos
      ensures pos == old(pos) + 1 && pool == Progress(old(pool), passes[old(pos)])
    {
      var batch := passes[pos];
      for i := 0 to |batch|
        invariant pos == old(pos) && pool == Progress(old(pool), batch[..i])
      {
        assert batch[..i + 1][..i] == batch[..i];
        pool := Next(pool, DoFinish(batch[i].0, batch[i].1));
      }
      assert batch[..|batch|] == batch;
      pos := pos + 1;
    }

    /** The pool after the passes from..to. */
    ghost function After(p: Pool, from: nat, to: nat): Pool
      requires from <= to <= |passes|
    {
      Progressed(p, passes[from..to])
    }

    lemma AfterNone(p: Pool, from: nat)
      requires from <= |passes|
      ensures After(p, from, from) == p
    {
      assert passes[from..from] == [];
    }

    lemma AfterOne(p: Pool, from: nat, to: nat)
      requires from <= to < |passes|
      ensures After(p, from, to + 1) == Progress(After(p, from, to), passes[to])
    {
      hide Progress;
      assert passes[from..to + 1][..to - from] == passes[from..to];
    }

    /** What a waiter on request k has done when it returns r: passed `first` or more times, the last pass
        being the first to end the operation, read its status, and given the request back clean. */
    twostate predicate Waited(k: nat, op: Op, new r: Wait<Status>)
      requires old(pos) <= pos <= |passes| && old(pool).InUse(k)
      reads this
    {
      var first := if op.WithHandler? then old(pos) else old(pos) + 1;
      var q := After(old(pool), old(pos), pos);
      && (forall m :: first <= m < pos ==> CanFinish(After(old(pool), old(pos), m), k))
      && SameUse(old(pool), q, k)
      && if r.Never? then pool == q && pos == |passes| && (first <= pos ==> CanFinish(q, k))
         else
           && first <= pos && r.value.Finished? && r.value == q.UseOf(k).status
           && pool == Release(Reset(q, k), k) && !pool.slots[k].completed
    }

    /** ucx_wait. A refused call returns its error and a call that completed at once returns success, both
        without touching a request. */
    method UcxWait(h: Handle) returns (r: Wait<Status>)
      requires Valid() && (h.Ptr? ==> pool.InUse(h.slot) && pool.UseOf(h.slot).op.WithHandler?)
      modifies this
      ensures Valid() && old(pos) <= pos
      ensures !h.Ptr? ==> pool == old(pool) && pos == old(pos) && r == Got(Finished(if h.Error? then h.code else 0))
      ensures h.Ptr? ==> Waited(h.slot, WithHandler, r)
      ensures h.Ptr? && r.Got? && Serving(old(pool), h.slot, WithHandler) ==>
                pool == End(old(pool), h.slot, r.value.code)
    {
      hide Progressed, Progress;
      if h.Error? {
        return Got(Finished(h.code));
      }
      if h.Null? {
        return Got(Finished(0));
      }
      var k := h.slot;
      AfterNone(pool, pos);
      assert SlotOk(pool, k);
      while !pool.slots[k].completed
        invariant Valid() && old(pos) <= pos && pool == After(old(pool), old(pos), pos) && SameUse(old(pool), pool, k)
        invariant SlotOk(pool, k)
        invariant Serving(old(pool), k, WithHandler) ==> AtMostEnded(old(pool), pool, k)
        invariant forall m :: old(pos) <= m < pos ==> CanFinish(After(old(pool), old(pos), m), k)
        decreases |passes| - pos
      {
        if pos == |passes| {
          return Never;
        }
        ProgressKeeps(pool, passes[pos], k);
        if Serving(old(pool), k, WithHandler) {
          ProgressAlone(old(pool), pool, passes[pos], k, WithHandler);
        }
        AfterOne(old(pool), old(pos), pos);
        ProgressOnce();
        assert SlotOk(pool, k);
      }
      NextOk(pool, DoWait(k));
      pool := Reset(pool, k);
      r := Got(pool.UseOf(k).status);
      pool := Release(pool, k);
    }

    /** flush_ep and ep_close: a pass comes before every look at the status. */
    method Poll(h: Handle) returns (r: Wait<Status>)
      requires Valid() && (h.Ptr? ==> pool.InUse(h.slot) && pool.UseOf(h.slot).op.Polled?)
      modifies this
      ensures Valid() && old(pos) <= pos
      ensures !h.Ptr? ==> pool == old(pool) && pos == old(pos) && r == Got(Finished(if h.Error? then h.code else 0))
      ensures h.Ptr? ==> Waited(h.slot, Polled, r)
      ensures h.Ptr? && r.Got? && Serving(old(pool), h.slot, Polled) ==>
                pool == End(old(pool), h.slot, r.value.code)
    {
      hide Progressed, Progress;
      if h.Error? {
        return Got(Finished(h.code));
      }
      if h.Null? {
        return Got(Finished(0));
      }
      var k := h.slot;
      var status := InProgress;
      AfterNone(pool, pos);
      while status.InProgress?
        invariant Valid() && old(pos) <= pos && pool == After(old(pool), old(pos), pos) && SameUse(old(pool), pool, k)
        invariant Serving(old(pool), k, Polled) ==> AtMostEnded(old(pool), pool, k)
        invariant forall m :: old(pos) < m < pos ==> CanFinish(After(old(pool), old(pos), m), k)
        invariant old(pos) < pos ==> status == pool.UseOf(k).status
        invariant status.Finished? ==> old(pos) < pos
        decreases |passes| - pos, status.InProgress?
      {
        if pos == |passes| {
          return Never;
        }
        ProgressKeeps(pool, passes[pos], k);
        if Serving(old(pool), k, Polled) {
          ProgressAlone(old(pool), pool, passes[pos], k, Polled);
        }
        AfterOne(old(pool), old(pos), pos);
        ProgressOnce();
        status := pool.UseOf(k).status;
      }
      assert SlotOk(pool, k);
      NextOk(pool, DoPoll(k));
      r := Got(status);
      pool := Release(pool, k);
    }
  }
}
