/** UcpServer::runServer, statement by statement. Every method is tied to the step functions: what it
    owns is what they say at the call it has reached. */
module ServerCode {
  import opened Wire
  import opened Roles
  import opened Runtime
  import opened Helpers
  import Requests

  /** do { progress; probe } while (msg_tag == NULL) */
  method AwaitMessage(p: Process) returns (r: Wait<nat>)
    requires p.role.Server? && p.At(SProbe)
    modifies p`pos, p`st
    ensures r.Got? ==> p.At(SAllocIn) && p.st.seen == r.value
    ensures r.Never? ==> p.Stopped()
  {
    hide CommonStep, Fold, Laters, Requests.Settled;
    while true
      invariant p.At(SProbe)
      decreases |p.trace| - p.pos
    {
      var o :- p.Take(Probe);
      if o.Probed? {
        return Got(o.length);
      }
    }
  }

  /** The buffer for the probed message. */
  method AllocateMessage(p: Process, length: nat) returns (r: Wait<bool>)
    requires p.role.Server? && p.At(SAllocIn) && p.st.seen == length && p.heap == EMPTY && p.ep == NoEp
    modifies p`pos, p`st, p`heap
    ensures r == Got(true) ==> p.At(SPostRecv) && p.ep == NoEp && OnlyMessage(p.heap)
    ensures r == Got(false) ==> p.Ended(Returned(-1)) && p.heap == EMPTY
    ensures r.Never? ==> p.Stopped()
  {
    hide CommonStep, Fold, Laters, Requests.Settled;
    var msg :- p.Take(Allocation);
    if !msg.granted {
      return Got(false);
    }
    p.PutIn(HostMalloc, Zeros(length));
    return Got(true);
  }

  predicate OnlyMessage(heap: Heap) {
    heap.inMsg.Some? && heap == EMPTY.(inMsg := Some(Block(HostMalloc, heap.inMsg.value.data)))
  }

  /** The message is in: this process dies now, or it goes on to allocate for the address. */
  ghost predicate Took(p: Process)
    requires OnlyMessage(p.heap)
    reads p
  {
    if p.cfg.serverErr.failure == SendFailure then p.Owes(Killed, EMPTY)
    else p.At(SAllocPeer) && p.st.seen == DataLen(p.heap.inMsg.value.data)
  }

  lemma ReceiveSteps(cfg: Config, p: Proc, o: Obs)
    requires p.pc.SPostRecv? || (p.pc.SWaitRecv? && AReceive.Finishes(o))
    ensures LocalStep(cfg, Server, p, o) ==
            if p.pc.SPostRecv? && o == Post(Later) then p.(pc := SWaitRecv)
            else if p.pc.SPostRecv? && o != Post(Refused) then p
            else if p.pc.SPostRecv? || !o.seen.received then AfterRole(cfg.serverErr.failure, FreeIn(p).(ret := -1))
            else AddressReceived(cfg, Fill(p, o.seen.data))
  {
    hide CommonStep;
  }

  lemma ReceiveCall()
    ensures CallAt(SPostRecv) == ReceivePosting
  {
  }

  /** The wait of the receive, with its request out. */
  method AwaitAddress(p: Process) returns (r: Wait<bool>)
    requires p.role.Server? && p.Follows() && p.st.pc.SWaitRecv? && p.ep == p.st.ep == NoEp
    requires p.epOk == p.st.epOk && p.output == p.st.output && p.heap == p.st.heap && OnlyMessage(p.heap)
    requires Requests.Settled(p.pool) && |p.pool.calls| + 1 == p.Handed()
    modifies p`pos, p`st, p`heap, p`epOk, p`pool
    ensures r == Got(true) ==> OnlyMessage(p.heap) && Took(p)
    ensures r == Got(false) ==> p.Ended(Returned(-1)) && p.heap == EMPTY
    ensures r.Never? ==> p.Stopped()
  {
    hide LocalStep, CallAt, Fold, Laters, Requests.Settled;
    ghost var before;
    var done;
    done, before :- Await(p, AReceive);
    ReceiveSteps(p.cfg, before, done);
    if done.seen.received {
      p.WriteIn(done.seen.data);
      return Got(true);
    }
    p.FreeInMsg(HostMalloc);
    return Got(false);
  }

  /** The receive and ucx_wait. With the send failure mode a received message is the last thing this
      process sees. */
  method ReceiveMessage(p: Process) returns (r: Wait<bool>)
    requires p.role.Server? && p.At(SPostRecv) && p.ep == NoEp && OnlyMessage(p.heap)
    modifies p`pos, p`st, p`heap, p`epOk, p`pool
    ensures r == Got(true) ==> OnlyMessage(p.heap) && Took(p)
    ensures r == Got(false) ==> p.Ended(Returned(-1)) && p.heap == EMPTY
    ensures r.Never? ==> p.Stopped()
  {
    hide LocalStep, CallAt, Fold, Laters, Requests.Settled, AddressReceived;
    ReceiveCall();
    var request :- p.Take(ReceivePosting);
    ReceiveSteps(p.cfg, old(p.st), request);
    if request == Post(Later) {
      r := AwaitAddress(p);
      return;
    }
    p.FreeInMsg(HostMalloc);
    return Got(false);
  }

  /** The malloc and memcpy of the client's address, and the free of the message it came in. */
  method CopyPeerAddress(p: Process) returns (r: Wait<bool>)
    requires p.role.Server? && p.At(SAllocPeer) && p.ep == NoEp
    requires OnlyMessage(p.heap)
    requires p.st.seen == DataLen(p.heap.inMsg.value.data)
    modifies p`pos, p`st, p`heap
    ensures r == Got(true) ==> p.At(SCreateEp) && p.ep == NoEp
                               && OnlyAddress(p.heap)
    ensures r == Got(false) ==> p.Ended(Returned(-1)) && p.heap == EMPTY
    ensures r.Never? ==> p.Stopped()
  {
    hide CommonStep, Fold, Laters, Requests.Settled;
    var peerAddrLen := DataLen(p.heap.inMsg.value.data);
    var copy :- p.Take(Allocation);
    if !copy.granted {
      p.FreeInMsg(HostMalloc);
      return Got(false);
    }
    var msg := p.heap.inMsg.value.data;
    // a copy past the message is undefined in the source; the step function records it as an overread
    p.PutPeer(if CopyInBounds(msg, peerAddrLen) then CopyPayload(msg, peerAddrLen) else Zeros(peerAddrLen));
    p.FreeInMsg(HostMalloc);
    return Got(true);
  }

  predicate Sends(heap: Heap, was: Heap, data: seq<byte>) {
    heap == was.(outMsg := Some(Block(MemType, data)))
  }

  /** The data message, zeroed, with its length in the header. */
  method AllocateData(p: Process) returns (r: Wait<bool>)
    requires p.role.Server? && p.At(SAllocOut) && p.ep.Open? && p.heap.outMsg == None && p.heap.inMsg == None
    modifies p`pos, p`st, p`heap
    ensures r == Got(true) ==> p.At(SGenAlloc) && Sends(p.heap, old(p.heap), Frame(Zeros(p.cfg.serverLen)))
    ensures r == Got(false) ==> p.At(PostClose) && p.heap == old(p.heap) && p.st.ret == -1
    ensures r.Never? ==> p.Stopped()
  {
    hide CommonStep, Fold, Laters, Requests.Settled;
    var msg :- p.Take(Allocation);
    if !msg.granted {
      return Got(false);
    }
    var len := p.cfg.serverLen;
    p.PutOut(MemType, Zeros(HEADER + len));
    assert Zeros(HEADER + len)[HEADER..] == Zeros(len);
    // set_msg_data_len
    p.WriteOut(Bytes(len, HEADER) + p.heap.outMsg.value.data[HEADER..]);
    return Got(true);
  }

  /** generate_test_string behind the header, with the length passed as an int. */
  method GenerateText(p: Process) returns (r: Wait<bool>)
    requires p.role.Server? && p.At(SGenAlloc) && p.ep.Open? && p.heap.inMsg == None
    requires p.heap.outMsg.Some? && p.heap.outMsg.value == Block(MemType, Frame(Zeros(p.cfg.serverLen)))
    modifies p`pos, p`st, p`heap, p`output
    ensures r == Got(true) ==>
              && ToInt32(p.cfg.serverLen) >= 0 && p.At(SPreProgress)
              && Sends(p.heap, old(p.heap), Frame(ServerPayload(p.cfg.serverLen)))
    ensures r == Got(true) ==> p.output == Some(Printf(ServerPayload(p.cfg.serverLen)))
    ensures r == Got(false) ==> p.At(PostClose) && p.heap == old(p.heap).(outMsg := None) && p.st.ret == -1
    ensures r == Got(false) ==> p.output == old(p.output)
    ensures r.Never? ==> p.Stopped()
  {
    hide CommonStep, Fold, Laters, Requests.Settled;
    var len := p.cfg.serverLen;
    var text :- p.Take(Allocation);
    if !text.granted || ToInt32(len) < 0 {
      p.FreeOutMsg(MemType);
      return Got(false);
    }
    p.WriteOut(p.heap.outMsg.value.data[..HEADER] + ServerPayload(len));
    p.Print(p.heap.outMsg.value.data[HEADER..]);
    return Got(true);
  }

  /** Makes sure failure_handler was called: the spin on ep_status. */
  method AwaitFailure(p: Process) returns (r: Wait<()>)
    requires p.role.Server? && p.ep.Open? && p.heap.outMsg.Some?
    requires p.st.pc in {SSpinFailed, SSpinKeepalive} && p.epOk && p.At(p.st.pc)
    modifies p`pos, p`st, p`epOk
    ensures r.Got? ==> !p.epOk && p.st.ret == old(p.st).ret && p.st.sent == old(p.st).sent
    ensures r.Got? && old(p.st).pc.SSpinKeepalive? ==> p.At(SPostFlush)
    ensures r.Got? && old(p.st).pc.SSpinFailed? ==> p.Owes(PostClose, p.heap.(outMsg := None))
    ensures r.Never? ==> p.Stopped()
  {
    hide CommonStep, Fold, Laters, Requests.Settled;
    while p.epOk
      invariant p.epOk ==> p.st == old(p.st) && p.At(p.st.pc)
      invariant !p.epOk ==> p.st.ret == old(p.st).ret && p.st.sent == old(p.st).sent
      invariant !p.epOk && old(p.st).pc.SSpinKeepalive? ==> p.At(SPostFlush)
      invariant !p.epOk && old(p.st).pc.SSpinFailed? ==> p.Owes(PostClose, p.heap.(outMsg := None))
      decreases |p.trace| - p.pos
    {
      var o :- p.Take(Pass);
      if o == Progress(PeerDown) {
        p.epOk := false;
      }
    }
    return Got(());
  }

  /** The progress pass before the send, the send, and ucx_wait: whether the message went out. */
  method SendMessage(p: Process) returns (r: Wait<bool>, ghost before: Proc)
    requires p.role.Server? && p.At(SPreProgress) && p.ep.Open? && p.heap.outMsg.Some?
    modifies p`pos, p`st, p`epOk, p`pool
    ensures p.heap == before.heap && p.ep == before.ep && p.epOk == before.epOk && before.ret == old(p.st).ret
    ensures before.output == p.output && (r.Got? ==> p.NoneOut())
    ensures r.Got? ==> p.Follows() && p.st == if r.value then DataSent(p.cfg, before) else SendFailed(p.cfg, before)
    ensures r.Never? ==> p.Stopped()
  {
    hide CommonStep, DataSent, SendFailed, Fold, Laters, Requests.Settled;
    before := p.st;
    r := Never;
    var o: Obs;
    o :- p.Take(Pass);
    if o == Progress(PeerDown) {
      p.epOk := false;
    }
    before := p.st;
    r, before := PostSend(p);
  }

  method PostSend(p: Process) returns (r: Wait<bool>, ghost before: Proc)
    requires p.role.Server? && p.At(SPostSend) && p.ep.Open?
    modifies p`pos, p`st, p`epOk, p`pool
    ensures p.heap == before.heap && p.ep == before.ep && p.epOk == before.epOk && before.ret == old(p.st).ret
    ensures before.output == p.output && (r.Got? ==> p.NoneOut())
    ensures r.Got? ==> p.Follows() && p.st == if r.value then DataSent(p.cfg, before) else SendFailed(p.cfg, before)
    ensures r.Never? ==> p.Stopped()
  {
    hide CommonStep, DataSent, SendFailed, Fold, Laters, Requests.Settled;
    before := p.st;
    r := Never;
    var o: Obs;
    o :- p.Take(Posting);
    if o.posted == Later {
      var done;
      done, before :- Await(p, ASend);
      r := Got(done.seen.ok);
    } else {
      r := Got(o.posted == Now);
    }
  }

  /** flush_ep: the caller still has to free its message. */
  method Flush(p: Process) returns (r: Wait<()>)
    requires p.role.Server? && p.At(SPostFlush) && p.ep.Open?
    modifies p`pos, p`st, p`epOk, p`pool
    ensures r.Got? ==> p.Owes(PostClose, p.heap.(outMsg := None)) && p.st.ret == 0 && p.st.sent == old(p.st).sent
    ensures r.Never? ==> p.Stopped()
  {
    hide CommonStep, Fold, Laters, Requests.Settled;
    var o :- p.Take(Posting);
    if o.posted == Later {
      ghost var before;
      var done;
      done, before :- Await(p, AnEpOperation);
    }
    return Got(());
  }

  /** From the sent message to the point where it is freed: the failure modes, then the flush. */
  method FinishSend(p: Process) returns (r: Wait<int>)
    requires p.role.Server? && p.At(SPreProgress) && p.ep.Open? && p.heap.outMsg.Some?
    modifies p`pos, p`st, p`epOk, p`pool
    ensures r.Got? ==> p.Owes(PostClose, p.heap.(outMsg := None)) && p.st.ret == r.value && p.st.sent.Some?
    ensures r.Got? ==> r.value == if !p.st.sent.value && p.cfg.serverErr.failure != NoFailure then -1 else 0
    ensures r.Never? ==> p.Stopped()
  {
    hide LocalStep, CallAt, Fold, Laters, Requests.Settled;
    ghost var before;
    var sent;
    sent, before :- SendMessage(p);
    if !sent {
      if p.cfg.serverErr.failure != NoFailure {
        return Got(-1);
      }
      if p.epOk {
        var _ :- AwaitFailure(p);
      }
      return Got(0);
    }
    if p.cfg.serverErr.failure == KeepaliveFailure && p.epOk {
      var _ :- AwaitFailure(p);
    }
    var _ :- Flush(p);
    return Got(0);
  }

  /** An endpoint that cannot be created counts as success under a failure mode. */
  method CreateEndpoint(p: Process) returns (r: Wait<bool>)
    requires p.role.Server? && p.At(SCreateEp) && p.ep == NoEp && OnlyAddress(p.heap)
    modifies p`pos, p`st, p`ep
    ensures r == Got(true) ==> p.At(SAllocOut) && p.ep == Open(p.heap.peerAddr.value.data)
    ensures r == Got(false) ==> p.ep == NoEp
                                && p.Ended(Returned(if p.cfg.serverErr.failure != NoFailure then 0 else -1))
    ensures r.Never? ==> p.Stopped()
  {
    hide CommonStep, Fold, Laters, Requests.Settled;
    var o :- p.Take(Creation);
    if o.made {
      p.ep := Open(p.heap.peerAddr.value.data);
    }
    return Got(o.made);
  }

  /** The client's address message, probed, allocated for and received. */
  method TakeMessage(p: Process) returns (r: Wait<bool>)
    requires p.role.Server? && p.At(SProbe) && p.heap == EMPTY && p.ep == NoEp
    modifies p`pos, p`st, p`heap, p`epOk, p`pool
    ensures r == Got(true) ==> OnlyMessage(p.heap) && Took(p)
    ensures r == Got(false) ==> p.Ended(Returned(-1)) && p.heap == EMPTY
    ensures r.Never? ==> p.Stopped()
  {
    hide LocalStep, CallAt, Fold, Laters, Requests.Settled;
    var length :- AwaitMessage(p);
    var ok :- AllocateMessage(p, length);
    if ok {
      ok :- ReceiveMessage(p);
    }
    return Got(ok);
  }

  /** The first half of runServer: to the copied address, or to an early end. */
  method ReceiveAddress(p: Process) returns (r: Wait<Option<End>>)
    requires p.role.Server? && p.At(SProbe) && p.heap == EMPTY && p.ep == NoEp
    modifies p`pos, p`st, p`heap, p`epOk, p`pool
    ensures r == Got(None) ==> p.At(SCreateEp) && OnlyAddress(p.heap)
    ensures r.Got? && r.value.Some? ==> p.Ended(r.value.value) && p.heap == EMPTY
    ensures r.Got? && r.value.Some? ==>
              r.value.value == Returned(-1) || (r.value.value == Died && p.cfg.serverErr.failure == SendFailure)
    ensures r.Got? && p.cfg.serverErr.failure == SendFailure ==> r.value.Some?
    ensures p.ep == old(p.ep)
    ensures r.Never? ==> p.Stopped()
  {
    hide LocalStep, CallAt, Fold, Laters, Requests.Settled;
    var ok :- TakeMessage(p);
    if !ok {
      return Got(Some(Returned(-1)));
    }
    if p.cfg.serverErr.failure == SendFailure {
      p.FreeInMsg(HostMalloc);
      return Got(Some(Died));
    }
    ok :- CopyPeerAddress(p);
    return Got(if ok then None else Some(Returned(-1)));
  }

  method BuildData(p: Process) returns (r: Wait<bool>)
    requires p.role.Server? && p.At(SAllocOut) && p.ep.Open? && p.heap.outMsg == None && p.heap.inMsg == None
    modifies p`pos, p`st, p`heap, p`output
    ensures r == Got(true) ==>
              && ToInt32(p.cfg.serverLen) >= 0 && p.At(SPreProgress)
              && Sends(p.heap, old(p.heap), Frame(ServerPayload(p.cfg.serverLen)))
    ensures r == Got(true) ==> p.output == Some(Printf(ServerPayload(p.cfg.serverLen)))
    ensures r == Got(false) ==> p.At(PostClose) && p.heap == old(p.heap) && p.st.ret == -1 && p.output == old(p.output)
    ensures r.Never? ==> p.Stopped()
  {
    hide LocalStep, CallAt, Fold, Laters, Requests.Settled;
    var ok :- AllocateData(p);
    if ok {
      ok :- GenerateText(p);
    }
    return Got(ok);
  }

  /** The data message from its allocation to its release, and what runServer will return. */
  method SendData(p: Process) returns (r: Wait<int>)
    requires p.role.Server? && p.At(SAllocOut) && p.ep.Open? && p.heap.outMsg == None && p.heap.inMsg == None
    requires p.output == None
    modifies p`pos, p`st, p`heap, p`epOk, p`pool, p`output
    ensures r.Got? ==> p.At(PostClose) && p.heap == old(p.heap) && p.st.ret == r.value
    ensures r.Got? && p.output == None ==> r.value == -1
    ensures r.Got? && p.output.Some? ==>
              && p.st.sent.Some?
              && r.value == if !p.st.sent.value && p.cfg.serverErr.failure != NoFailure then -1 else 0
    ensures r.Never? ==> p.Stopped()
  {
    hide LocalStep, CallAt, Fold, Laters, Requests.Settled, Process.Follows, Process.NoneOut, Process.Stopped;
    var ok :- BuildData(p);
    if !ok {
      return Got(-1);
    }
    var ret :- FinishSend(p);
    p.FreeOutMsg(MemType);
    return Got(ret);
  }

  /** The second half: the endpoint, the data message, and the release of both. */
  method SendString(p: Process) returns (r: Wait<End>)
    requires p.role.Server? && p.At(SCreateEp) && p.ep == NoEp
    requires OnlyAddress(p.heap) && p.output == None
    modifies p`pos, p`st, p`heap, p`epOk, p`ep, p`pool, p`output
    ensures r.Got? ==> p.Ended(r.value) && p.heap == old(p.heap)
    ensures r.Got? && p.ep != NoEp ==> p.heap.peerAddr == Some(Block(HostMalloc, p.ep.addr))
    ensures r.Got? ==> r.value.Returned?
    ensures r.Got? && p.ep == NoEp ==> r.value.ret == if p.cfg.serverErr.failure != NoFailure then 0 else -1
    ensures r.Got? && p.ep != NoEp && p.output == None ==> r.value.ret == -1
    ensures r.Got? && p.ep != NoEp && p.output.Some? ==>
              && p.st.sent.Some?
              && r.value.ret == if !p.st.sent.value && p.cfg.serverErr.failure != NoFailure then -1 else 0
    ensures r.Never? ==> p.Stopped()
  {
    hide LocalStep, CallAt, Fold, Laters, Requests.Settled, Process.Follows, Process.NoneOut, Process.Stopped;
    var ok :- CreateEndpoint(p);
    if !ok {
      return Got(Returned(if p.cfg.serverErr.failure != NoFailure then 0 else -1));
    }
    var ret :- SendData(p);
    r := Close(p, ret);
  }

  /** runServer. Without the copy of the client's address it returns -1; without an endpoint 0 under a failure
      mode and -1 otherwise; with one -1 if the message was not built, or not sent under a failure mode, and
      else 0. Its endpoint is closed, its messages are freed, and of everything it allocated only that copy
      is left. */
  method RunServer(p: Process) returns (r: Wait<End>)
    requires p.role.Server? && p.At(SProbe) && p.heap == EMPTY && p.ep == NoEp && p.output == None
    modifies p
    ensures r.Got? ==> p.Ended(r.value)
    ensures r.Got? && p.ep != NoEp ==> p.heap.peerAddr == Some(Block(HostMalloc, p.ep.addr))
    ensures r.Got? && r.value.Returned? ==> p.heap == EMPTY || OnlyAddress(p.heap)
    ensures r.Got? && r.value.Returned? && p.ep == NoEp ==>
              r.value.ret == if p.heap != EMPTY && p.cfg.serverErr.failure != NoFailure then 0 else -1
    ensures r.Got? && p.ep != NoEp ==> r.value.Returned? && (p.output == None ==> r.value.ret == -1)
    ensures r.Got? && p.ep != NoEp && p.output.Some? ==>
              && p.st.sent.Some?
              && r.value.ret == if !p.st.sent.value && p.cfg.serverErr.failure != NoFailure then -1 else 0
    ensures r.Got? && r.value.Died? ==> p.cfg.serverErr.failure == SendFailure
    ensures r.Never? ==> p.Stopped()
  {
    hide LocalStep, CallAt, Fold, Laters, Requests.Settled;
    var early :- ReceiveAddress(p);
    if early.Some? {
      return Got(early.value);
    }
    r := SendString(p);
  }
}
