/** One process as an object: the blocks and the endpoint its code owns, changed by its code, and the
    results of its calls, taken one by one from a trace. */
module Runtime {
  import opened Wire
  import opened Roles
  import Requests

  /** How a role function ends: with its return value, or by raise(SIGKILL). */
  datatype End = Returned(ret: int) | Died

  /** The calls of the code, by the kind of result they have. */
  datatype Call =
    | Allocation | Creation | Posting | ReceivePosting | Pass | Probe | Sending | Receiving | Polling | Plain
  {
    predicate Answers(o: Obs) {
      match this
      case Allocation => o.Alloc?
      case Creation => o.Created?
      case Posting => o.Post?
      case ReceivePosting => o == Post(Later) || o == Post(Refused)
      case Pass => o.Progress?
      case Probe => o.Probed? || o.Progress?
      case Sending => o.Sent?
      case Receiving => o.Recvd?
      case Polling => o.Readable? || o.Progress?
      case Plain => o.Called?
    }
  }

  function CallAt(pc: Pc): Call {
    if pc in {CAllocPeer, CAllocOut, CAllocIn, CAllocStr, SAllocIn, SAllocPeer, SAllocOut, SGenAlloc} then Allocation
    else if pc in {CCreateEp, SCreateEp} then Creation
    else if pc in {CPostSend, SPostSend, SPostFlush, PostClose} then Posting
    else if pc in {CPostRecv, SPostRecv} then ReceivePosting
    else if pc in {CProbe, SProbe} then Probe
    else if pc in {SSendLen, SSendAddr, BarrierSend} then Sending
    else if pc in {CRecvLen, CRecvAddr, BarrierRecv} then Receiving
    else if pc.BarrierPoll? then Polling
    else if pc in {CloseSock, ReleaseAddr, DestroyWorker, CleanupCtx} then Plain
    else Pass
  }

  /** The step function over a sequence of results. */
  function Fold(cfg: Config, r: Role, p: Proc, obs: seq<Obs>): Proc
    decreases |obs|
  {
    if obs == [] then p
    else LocalStep(cfg, r, Fold(cfg, r, p, obs[..|obs| - 1]), obs[|obs| - 1])
  }

  /** How many calls handed out a request. */
  function Laters(obs: seq<Obs>): nat
    decreases |obs|
  {
    if obs == [] then 0 else Laters(obs[..|obs| - 1]) + if obs[|obs| - 1] == Post(Later) then 1 else 0
  }

  /** The peer's address is the only block. */
  predicate OnlyAddress(heap: Heap) {
    heap.peerAddr.Some? && heap == EMPTY.(peerAddr := Some(Block(HostMalloc, heap.peerAddr.value.data)))
  }

  class Process {
    const cfg: Config
    const role: Role
    const trace: seq<Obs>
    const start: Proc
    var pos: nat
    var heap: Heap
    var ep: Ep
    var epOk: bool
    /** What printf made of the string it was given, once it ran. */
    var output: Option<Print>
    /** The requests of this process's worker. */
    var pool: Requests.Pool
    ghost var st: Proc

    /** st is what the step function makes of the results taken so far. */
    ghost predicate Follows()
      reads this`pos, this`st
    {
      pos <= |trace| && st == Fold(cfg, role, start, trace[..pos])
    }

    ghost function Handed(): nat
      reads this`pos
      requires pos <= |trace|
    {
      Laters(trace[..pos])
    }

    /** Every request that a call handed out is back in the pool. */
    ghost predicate NoneOut()
      reads this`pos, this`pool
    {
      pos <= |trace| && Requests.Settled(pool) && |pool.calls| == Handed()
    }

    /** The calls have reached pc, and the code has yet to turn what it owns into `blocks`. */
    ghost predicate Owes(pc: Pc, blocks: Heap)
      reads this
    {
      && Follows() && NoneOut() && st.pc == pc && st.heap == blocks
      && ep == st.ep && epOk == st.epOk && output == st.output
    }

    /** The code is at the call pc, and owns exactly what the step function says. */
    ghost predicate At(pc: Pc)
      reads this
    {
      Owes(pc, heap)
    }

    /** The call the code has reached never returns: the trace holds no result for it. */
    ghost predicate Stopped()
      reads this`pos, this`st
    {
      Follows() && (pos == |trace| || !CallAt(st.pc).Answers(trace[pos]))
    }

    /** The role function has ended this way, with no request left out. */
    ghost predicate Ended(end: End)
      reads this
    {
      match end
      case Returned(ret) =>
        && Follows() && NoneOut()
        && st.roleRet == Some(ret) && st.ret == ret
        && st.pc == (if ret == 0 && cfg.Failure(role) == NoFailure then BarrierSend else CloseSock)
        && heap == st.heap && ep == st.ep && epOk == st.epOk && output == st.output
        && heap.outMsg == None && heap.inMsg == None && !ep.Open?
        && (ep.Closed? ==> (ep.force <==> cfg.Err(role).mode == HandlePeer))
      case Died => Follows() && NoneOut() && st.pc.Killed?
    }

    constructor (cfg: Config, role: Role, trace: seq<Obs>, start: Proc)
      ensures this.cfg == cfg && this.role == role && this.trace == trace && this.start == start
      ensures pos == 0 && st == start && At(start.pc)
      ensures heap == start.heap && ep == start.ep && epOk == start.epOk && pool.calls == []
    {
      this.cfg, this.role, this.trace, this.start := cfg, role, trace, start;
      pos, st := 0, start;
      heap, ep, epOk, output := start.heap, start.ep, start.epOk, start.output;
      pool := Requests.Pool([], []);
    }

    /** Makes the call the code has reached, and returns its result if it has one. */
    method Take(call: Call) returns (o: Wait<Obs>)
      requires Follows() && call == CallAt(st.pc)
      modifies this`pos, this`st
      ensures o.Never? ==> pos == old(pos) && st == old(st) && Stopped()
      ensures o.Got? ==> Follows() && pos == old(pos) + 1 && st == LocalStep(cfg, role, old(st), o.value)
      ensures o.Got? ==> call.Answers(o.value) && Handed() == old(Handed()) + if o.value == Post(Later) then 1 else 0
    {
      if pos == |trace| || !call.Answers(trace[pos]) {
        return Never;
      }
      o := Got(trace[pos]);
      assert trace[..pos + 1][..pos] == trace[..pos];
      st := LocalStep(cfg, role, st, trace[pos]);
      pos := pos + 1;
    }

    /** The request that a call handed out: UCX takes a new one or any that it got back. */
    method Begin(op: Requests.Op) returns (request: nat)
      requires Requests.Settled(pool)
      modifies this`pool
      ensures Requests.Serving(pool, request, op) && |pool.calls| == |old(pool).calls| + 1
    {
      request :| 0 <= request <= |pool.slots|;
      Requests.BeginServes(pool, request, op);
      pool := Requests.Begin(pool, request, op);
    }

    /** The operation has ended: its waiter frees the request. */
    method End(request: nat, ghost op: Requests.Op, code: int)
      requires Requests.Serving(pool, request, op)
      modifies this`pool
      ensures Requests.Settled(pool) && |pool.calls| == |old(pool).calls|
    {
      Requests.EndSettles(pool, request, op, code);
      pool := Requests.End(pool, request, code);
    }

    /** printf("%s", s). */
    method Print(s: seq<byte>)
      modifies this`output
      ensures output == Some(Printf(s))
    {
      output := Some(Printf(s));
    }

    /** malloc, calloc and mem_type_malloc into the slot for messages to be sent. */
    method PutOut(allocator: Allocator, data: seq<byte>)
      requires heap.outMsg == None
      modifies this`heap
      ensures heap == old(heap).(outMsg := Some(Block(allocator, data)))
    {
      heap := heap.(outMsg := Some(Block(allocator, data)));
    }

    method PutIn(allocator: Allocator, data: seq<byte>)
      requires heap.inMsg == None
      modifies this`heap
      ensures heap == old(heap).(inMsg := Some(Block(allocator, data)))
    {
      heap := heap.(inMsg := Some(Block(allocator, data)));
    }

    method PutPeer(data: seq<byte>)
      requires heap.peerAddr == None
      modifies this`heap
      ensures heap == old(heap).(peerAddr := Some(Block(HostMalloc, data)))
    {
      heap := heap.(peerAddr := Some(Block(HostMalloc, data)));
    }

    /** free or mem_type_free: the block must be there and come from the matching allocator. */
    method FreeOutMsg(allocator: Allocator)
      requires heap.outMsg.Some? && heap.outMsg.value.allocator == allocator
      modifies this`heap
      ensures heap == old(heap).(outMsg := None)
    {
      heap := heap.(outMsg := None);
    }

    method FreeInMsg(allocator: Allocator)
      requires heap.inMsg.Some? && heap.inMsg.value.allocator == allocator
      modifies this`heap
      ensures heap == old(heap).(inMsg := None)
    {
      heap := heap.(inMsg := None);
    }

    method FreePeer()
      requires heap.peerAddr.Some? && heap.peerAddr.value.allocator == HostMalloc
      modifies this`heap
      ensures heap == old(heap).(peerAddr := None)
    {
      heap := heap.(peerAddr := None);
    }

    method WritePeer(data: seq<byte>)
      requires heap.peerAddr.Some?
      modifies this`heap
      ensures heap == old(heap).(peerAddr := Some(Block(old(heap).peerAddr.value.allocator, data)))
    {
      heap := heap.(peerAddr := Some(heap.peerAddr.value.(data := data)));
    }

    /** Writing through msg: the block keeps its allocator. */
    method WriteOut(data: seq<byte>)
      requires heap.outMsg.Some? && |data| == |heap.outMsg.value.data|
      modifies this`heap
      ensures heap == old(heap).(outMsg := Some(Block(old(heap).outMsg.value.allocator, data)))
    {
      heap := heap.(outMsg := Some(heap.outMsg.value.(data := data)));
    }

    method WriteIn(data: seq<byte>)
      requires heap.inMsg.Some?
      modifies this`heap
      ensures heap == old(heap).(inMsg := Some(Block(old(heap).inMsg.value.allocator, data)))
    {
      heap := heap.(inMsg := Some(heap.inMsg.value.(data := data)));
    }
  }
}
