/** UcpClient::runUcxClient, statement by statement, tied to the step functions like the server's code. */
module ClientCode {
  import opened Wire
  import opened Roles
  import opened Runtime
  import opened Helpers
  import Requests

  method CreateEndpoint(p: Process) returns (r: Wait<bool>)
    requires p.role.Client? && p.At(CCreateEp) && p.ep == NoEp && p.heap.outMsg == None && p.heap.inMsg == None
    requires p.heap.peerAddr.Some?
    modifies p`pos, p`st, p`ep
    ensures r == Got(true) ==> p.At(CAllocOut) && p.ep == Open(p.heap.peerAddr.value.data) && p.st.ret == -1
    ensures r == Got(false) ==> p.Ended(Returned(-1)) && p.ep == NoEp
    ensures r.Never? ==> p.Stopped()
  {
    hide CommonStep, Fold, Laters, Requests.Settled;
    var o :- p.Take(Creation);
    if o.made {
      p.ep := Open(p.heap.peerAddr.value.data);
    }
    return Got(o.made);
  }

  /** The address message: header and own address. */
  method BuildAddressMessage(p: Process) returns (r: Wait<bool>)
    requires p.role.Client? && p.At(CAllocOut) && p.ep.Open? && p.heap.outMsg == None
    modifies p`pos, p`st, p`heap
    ensures p.st.ret == old(p.st).ret
    ensures r == Got(true) ==>
              && p.At(CPostSend)
              && p.heap == old(p.heap).(outMsg := Some(Block(HostMalloc, Frame(p.cfg.clientAddr))))
    ensures r == Got(false) ==> p.At(PostClose) && p.heap == old(p.heap)
    ensures r.Never? ==> p.Stopped()
  {
    hide CommonStep, Fold, Laters, Requests.Settled;
    var msg :- p.Take(Allocation);
    if !msg.granted {
      return Got(false);
    }
    var addr := p.cfg.clientAddr;
    p.PutOut(HostMalloc, Zeros(HEADER + |addr|));
    p.WriteOut(Bytes(|addr|, HEADER) + p.heap.outMsg.value.data[HEADER..]);
    p.WriteOut(p.heap.outMsg.value.data[..HEADER] + addr);
    return Got(true);
  }

  /** The send of the address and ucx_wait: whether it succeeded. The message is still to be freed. */
  method SendAddress(p: Process) returns (r: Wait<bool>, ghost before: Proc)
    requires p.role.Client? && p.At(CPostSend) && p.ep.Open? && p.heap.outMsg.Some?
    modifies p`pos, p`st, p`epOk, p`pool
    ensures p.heap == before.heap && p.ep == before.ep && p.epOk == before.epOk
    ensures before.ret == old(p.st).ret && before.output == p.output
    ensures r.Got? ==> p.Follows() && p.NoneOut()
                       && p.st == if r.value then AddressSent(p.cfg, before)
                                  else FreeOut(before).(sent := Some(false), pc := PostClose)
    ensures r.Never? ==> p.Stopped()
  {
    hide CommonStep, AddressSent, Fold, Laters, Requests.Settled;
    before := p.st;
    r := Never;
    var o: Obs;
    o :- p.Take(Posting);
    if o.posted == Later {
      var done;
      done, before :- Await(p, ASend);
      r := Got(done.seen.ok);
    } else {
      r := Got(o.posted == Now);
    }
  }

  /** for (;;) { check ep_status; probe; progress }: the length of the message, or None on disconnection. */
  method AwaitMessage(p: Process) returns (r: Wait<Option<nat>>)
    requires p.role.Client? && p.ep.Open? && if p.epOk then p.At(CProbe) else p.At(PostClose)
    modifies p`pos, p`st, p`epOk
    ensures p.st.ret == old(p.st).ret
    ensures r == Got(None) ==> p.At(PostClose) && !p.epOk
    ensures r.Got? && r.value.Some? ==>
              if p.cfg.clientErr.failure == KeepaliveFailure then p.Owes(Killed, p.heap)
              else p.At(CAllocIn) && p.st.seen == r.value.value
    ensures r.Never? ==> p.Stopped()
  {
    hide CommonStep, Fold, Laters, Requests.Settled;
    while true
      invariant if p.epOk then p.At(CProbe) else p.At(PostClose)
      invariant p.st.ret == old(p.st).ret
      decreases |p.trace| - p.pos
    {
      if !p.epOk {
        return Got(None);
      }
      var o :- p.Take(Probe);
      if o.Probed? {
        return Got(Some(o.length));
      }
      if o == Progress(PeerDown) {
        p.epOk := false;
      }
    }
  }

  method AllocateMessage(p: Process, length: nat) returns (r: Wait<bool>)
    requires p.role.Client? && p.At(CAllocIn) && p.st.seen == length && p.ep.Open? && p.heap.inMsg == None
    modifies p`pos, p`st, p`heap
    ensures p.st.ret == old(p.st).ret
    ensures r == Got(true) ==>
              p.At(CPostRecv) && p.heap == old(p.heap).(inMsg := Some(Block(MemType, Zeros(length))))
    ensures r == Got(false) ==> p.At(PostClose) && p.heap == old(p.heap)
    ensures r.Never? ==> p.Stopped()
  {
    hide CommonStep, Fold, Laters, Requests.Settled;
    var msg :- p.Take(Allocation);
    if msg.granted {
      p.PutIn(MemType, Zeros(length));
    }
    return Got(msg.granted);
  }

  lemma ReceiveSteps(cfg: Config, p: Proc, o: Obs)
    requires p.pc.CPostRecv? || (p.pc.CWaitRecv? && AReceive.Finishes(o))
    ensures LocalStep(cfg, Client, p, o) ==
            if p.pc.CPostRecv? && o == Post(Later) then p.(pc := CWaitRecv)
            else if p.pc.CPostRecv? && o != Post(Refused) then p
            else if p.pc.CPostRecv? || !o.seen.received then FreeIn(p).(pc := PostClose)
            else Fill(p, o.seen.data).(pc := CAllocStr)
  {
    hide CommonStep;
  }

  predicate Holds(heap: Heap, was: Heap) {
    heap.inMsg.Some? && heap == was.(inMsg := Some(Block(MemType, heap.inMsg.value.data)))
  }

  /** The receive and ucx_wait. A failed receive frees the message. */
  method ReceiveMessage(p: Process) returns (r: Wait<bool>)
    requires p.role.Client? && p.At(CPostRecv) && p.ep.Open?
    requires p.heap.inMsg.Some? && p.heap.inMsg.value.allocator == MemType
    modifies p`pos, p`st, p`heap, p`epOk, p`pool
    ensures p.st.ret == old(p.st).ret
    ensures r == Got(true) ==> p.At(CAllocStr) && Holds(p.heap, old(p.heap))
    ensures r == Got(false) ==> p.At(PostClose) && p.heap == old(p.heap).(inMsg := None)
    ensures r.Never? ==> p.Stopped()
  {
    hide LocalStep, Fold, Laters, Requests.Settled;
    ghost var before := p.st;
    var request :- p.Take(ReceivePosting);
    ReceiveSteps(p.cfg, before, request);
    if request == Post(Later) {
      var done;
      done, before :- Await(p, AReceive);
      ReceiveSteps(p.cfg, before, done);
      if done.seen.received {
        p.WriteIn(done.seen.data);
        return Got(true);
      }
    }
    p.FreeInMsg(MemType);
    return Got(false);
  }

  /** The string: calloc of exactly the length to copy, copy, print, free. Nothing in it is left for a NUL,
      so what is printed depends on the copied bytes. The message is freed either way. */
  method PrintString(p: Process) returns (r: Wait<int>)
    requires p.role.Client? && p.At(CAllocStr) && p.ep.Open?
    requires p.heap.inMsg.Some? && p.heap.inMsg.value.allocator == MemType
    modifies p`pos, p`st, p`heap, p`output
    ensures r.Got? ==> p.At(PostClose) && p.heap == old(p.heap).(inMsg := None) && p.st.ret == r.value
    ensures r.Got? ==> r.value == 0 || r.value == -1
    ensures r == Got(0) && CopyInBounds(old(p.heap).inMsg.value.data, p.cfg.clientLen) ==>
              p.output == Some(Printf(CopyPayload(old(p.heap).inMsg.value.data, p.cfg.clientLen)))
    ensures r != Got(0) ==> p.output == old(p.output)
    ensures r.Never? ==> p.Stopped()
  {
    hide CommonStep, Fold, Laters, Requests.Settled, Printf;
    var str :- p.Take(Allocation);
    var ret := -1;
    if str.granted {
      var msg := p.heap.inMsg.value.data;
      // a copy past the message is undefined in the source; the step function records it as an overread
      if CopyInBounds(msg, p.cfg.clientLen) {
        p.Print(CopyPayload(msg, p.cfg.clientLen));
      }
      ret := 0;
    }
    p.FreeInMsg(MemType);
    return Got(ret);
  }

  /** Sends the client's address. Afterwards the client goes on receiving, dies, or closes. */
  method SendPhase(p: Process) returns (r: Wait<bool>)
    requires p.role.Client? && p.At(CAllocOut) && p.ep.Open? && p.heap.outMsg == None
    modifies p`pos, p`st, p`heap, p`epOk, p`pool
    ensures r.Got? ==> p.heap == old(p.heap) && p.st.ret == old(p.st).ret
    ensures r == Got(true) ==>
              if p.cfg.clientErr.failure == RecvFailure then p.Owes(Killed, p.heap)
              else p.At(if p.epOk then CProbe else PostClose)
    ensures r == Got(false) ==> p.At(PostClose)
    ensures r.Never? ==> p.Stopped()
  {
    hide LocalStep, CallAt, Fold, Laters, Requests.Settled;
    var ok :- BuildAddressMessage(p);
    if !ok {
      return Got(false);
    }
    ghost var before;
    ok, before :- SendAddress(p);
    p.FreeOutMsg(HostMalloc);
    return Got(ok);
  }

  /** From the probed message to the freed one. */
  method ReceivePhase(p: Process, length: nat) returns (r: Wait<int>)
    requires p.role.Client? && p.At(CAllocIn) && p.st.seen == length && p.ep.Open? && p.heap.inMsg == None
    requires p.st.ret == -1
    modifies p`pos, p`st, p`heap, p`epOk, p`output, p`pool
    ensures r.Got? ==> p.At(PostClose) && p.heap == old(p.heap) && p.st.ret == r.value
    ensures r.Got? ==> r.value == 0 || r.value == -1
    ensures r != Got(0) ==> p.output == old(p.output)
    ensures r.Never? ==> p.Stopped()
  {
    hide LocalStep, CallAt, Fold, Laters, Requests.Settled;
    var ok :- AllocateMessage(p, length);
    if !ok {
      return Got(-1);
    }
    ok :- ReceiveMessage(p);
    if !ok {
      return Got(-1);
    }
    r := PrintString(p);
  }

  /** runUcxClient. What it returns and prints is what the step function says; its endpoint is closed,
      every request it was handed is freed, and it leaves the blocks it found. */
  method RunUcxClient(p: Process) returns (r: Wait<End>)
    requires p.role.Client? && p.At(CCreateEp) && p.ep == NoEp
    requires p.heap.outMsg == None && p.heap.inMsg == None && p.heap.peerAddr.Some?
    modifies p
    ensures r.Got? ==> p.Ended(r.value) && p.heap == old(p.heap)
    ensures r.Got? && r.value.Returned? ==> r.value.ret == 0 || r.value.ret == -1
    ensures r.Got? && r.value.Died? ==> p.cfg.clientErr.failure in {RecvFailure, KeepaliveFailure}
    ensures r.Got? && r.value != Returned(0) ==> p.output == old(p.output)
    ensures r.Never? ==> p.Stopped()
  {
    hide LocalStep, CallAt, Fold, Laters, Requests.Settled;
    var ok :- CreateEndpoint(p);
    if !ok {
      return Got(Returned(-1));
    }
    ok :- SendPhase(p);
    if ok && p.cfg.clientErr.failure == RecvFailure {
      return Got(Died);
    }
    var ret := -1;
    if ok {
      var length :- AwaitMessage(p);
      if length.Some? {
        if p.cfg.clientErr.failure == KeepaliveFailure {
          return Got(Died);
        }
        ret :- ReceivePhase(p, length.value);
      }
    }
    r := Close(p, ret);
  }
}
