/** main of ucp_hello_world_v2.cpp around the role functions: the address exchange, the barrier and the
    teardown, tied to the step functions. */
module MainCode {
  import opened Wire
  import opened Roles
  import opened Runtime
  import ClientCode
  import Requests
  import ServerCode

  /** The server's half of the exchange, and main's ret after it. */
  method SendAddress(p: Process) returns (r: Wait<bool>, ret: int)
    requires p.role.Server? && p.At(SSendLen)
    modifies p`pos, p`st
    ensures r == Got(true) ==> p.At(SProbe)
    ensures r == Got(false) ==> p.At(ReleaseAddr) && p.st.ret == ret
    ensures r.Never? ==> p.Stopped()
  {
    hide CommonStep, Fold, Laters, Requests.Settled, LengthCheck;
    r, ret := Never, -1;
    var length: Obs;
    length :- p.Take(Sending);
    if !LengthCheck(length.n, HEADER) {
      return Got(false), ToInt32(length.n);
    }
    var address: Obs;
    address :- p.Take(Sending);
    return Got(LengthCheck(address.n, |p.cfg.serverAddr|)), ToInt32(address.n);
  }

  function Count(o: Obs): int
    requires o.Recvd?
  {
    if o.failed then -1 else |o.bytes|
  }

  method ReceiveLength(p: Process) returns (r: Wait<Option<nat>>, ret: int)
    requires p.role.Client? && p.At(CRecvLen)
    modifies p`pos, p`st
    ensures r.Got? && r.value.Some? ==> p.At(CAllocPeer) && p.st.seen == r.value.value
    ensures r == Got(None) ==> p.At(ReleaseAddr)
    ensures r.Got? ==> p.st.ret == ret
    ensures r.Never? ==> p.Stopped()
  {
    hide CommonStep, Fold, Laters, Requests.Settled, LengthCheck;
    r, ret := Never, -1;
    var length: Obs;
    length :- p.Take(Receiving);
    ret := ToInt32(Count(length));
    return Got(if LengthCheck(Count(length), HEADER) then Some(Value(length.bytes)) else None), ret;
  }

  /** The client's buffer for the server's address, and the receive into it. */
  method ReceiveAddress(p: Process, length: nat, was: int) returns (r: Wait<bool>, ret: int)
    requires p.role.Client? && p.At(CAllocPeer) && p.st.seen == length && p.heap == EMPTY && p.st.ret == was
    modifies p`pos, p`st, p`heap
    ensures r == Got(true) ==> p.At(CCreateEp) && OnlyAddress(p.heap)
    ensures r == Got(false) ==> p.At(ReleaseAddr) && p.heap == EMPTY
    ensures r.Got? ==> p.st.ret == ret
    ensures r.Never? ==> p.Stopped()
  {
    hide CommonStep, Fold, Laters, Requests.Settled, LengthCheck;
    r, ret := Never, was;
    var malloc: Obs;
    malloc :- p.Take(Allocation);
    if !malloc.granted {
      return Got(false), ret;
    }
    p.PutPeer(Zeros(length));
    var address: Obs;
    address :- p.Take(Receiving);
    ret := ToInt32(Count(address));
    if LengthCheck(Count(address), length) {
      p.WritePeer(address.bytes);
      return Got(true), ret;
    }
    p.FreePeer();
    return Got(false), ret;
  }

  lemma BarrierSteps(cfg: Config, r: Role, p: Proc, o: Obs)
    requires p.pc.BarrierSend? || p.pc.BarrierPoll? || p.pc.BarrierRecv?
    ensures LocalStep(cfg, r, p, o) == CommonStep(cfg, r, p, o)
  {
    hide CommonStep;
  }

  /** do { poll; progress } while nothing is readable. */
  method AwaitReadable(p: Process) returns (r: Wait<()>)
    requires p.At(BarrierPoll)
    modifies p`pos, p`st
    ensures r.Got? ==> p.st == old(p.st).(pc := BarrierRecv) && p.At(BarrierRecv)
    ensures r.Never? ==> p.Stopped()
  {
    hide LocalStep, Fold, Laters, Requests.Settled;
    while true
      invariant p.st == old(p.st) && p.At(BarrierPoll)
      decreases |p.trace| - p.pos
    {
      var res :- p.Take(Polling);
      BarrierSteps(p.cfg, p.role, old(p.st), res);
      if res.Readable? {
        return Got(());
      }
    }
  }

  /** The token's receive: 0 exactly for a whole token. */
  method TakeToken(p: Process) returns (r: Wait<int>)
    requires p.At(BarrierRecv)
    modifies p`pos, p`st
    ensures r.Got? ==> p.At(CloseSock) && p.st == old(p.st).(pc := CloseSock, ret := r.value, barrier := Some(r.value))
    ensures r.Got? ==> r.value == 0 || r.value == 1
    ensures r.Never? ==> p.Stopped()
  {
    hide LocalStep, Fold, Laters, Requests.Settled;
    var got :- p.Take(Receiving);
    BarrierSteps(p.cfg, p.role, old(p.st), got);
    return Got(if !got.failed && |got.bytes| == 4 then 0 else 1);
  }

  /** barrier: a token out, progress until something is readable, a token in. 0 exactly when a whole
      token came in. */
  method Barrier(p: Process) returns (r: Wait<int>)
    requires p.At(BarrierSend)
    modifies p`pos, p`st
    ensures r.Got? ==> p.At(CloseSock) && p.st == old(p.st).(pc := CloseSock, ret := r.value, barrier := Some(r.value))
    ensures r.Got? ==> r.value < 0 || r.value == 0 || r.value == 1
    ensures r.Never? ==> p.Stopped()
  {
    hide LocalStep, Fold, Laters, Requests.Settled;
    var sent :- p.Take(Sending);
    BarrierSteps(p.cfg, p.role, old(p.st), sent);
    if sent.n < 0 {
      return Got(sent.n);
    }
    var _ :- AwaitReadable(p);
    r := TakeToken(p);
  }

  lemma TeardownSteps(cfg: Config, r: Role, p: Proc)
    requires p.pc in {CloseSock, ReleaseAddr, DestroyWorker, CleanupCtx}
    ensures LocalStep(cfg, r, p, Called) == CommonStep(cfg, r, p, Called)
  {
    hide CommonStep;
  }

  /** close(oob_sock) and free(peer_addr); on the server peer_addr is NULL. */
  method CloseSocket(p: Process) returns (r: Wait<()>)
    requires p.At(CloseSock) && (p.role.Client? ==> OnlyAddress(p.heap))
    modifies p`pos, p`st, p`heap
    ensures r.Got? ==> p.At(ReleaseAddr)
                       && p.heap == if p.role.Client? then old(p.heap).(peerAddr := None) else old(p.heap)
    ensures p.st.ret == old(p.st).ret && p.st.roleRet == old(p.st).roleRet
    ensures r.Never? ==> p.Stopped()
  {
    hide LocalStep, Fold, Laters, Requests.Settled;
    TeardownSteps(p.cfg, p.role, p.st);
    var _ :- p.Take(Plain);
    if p.role.Client? {
      p.FreePeer();
    }
    return Got(());
  }

  lemma ReleaseSteps(cfg: Config, r: Role, p: Proc)
    requires p.pc in {ReleaseAddr, DestroyWorker, CleanupCtx}
    ensures var q := LocalStep(cfg, r, p, Called);
            && q.pc == (if p.pc.ReleaseAddr? then DestroyWorker else if p.pc.DestroyWorker? then CleanupCtx else Done)
            && q == p.(pc := q.pc, res := q.res)
  {
    TeardownSteps(cfg, r, p);
    hide LocalStep;
  }

  /** The labels err_addr, err_worker and err_cleanup. */
  method Release(p: Process) returns (r: Wait<()>)
    requires p.At(ReleaseAddr)
    modifies p`pos, p`st
    ensures r.Got? ==> p.At(Done)
    ensures p.st.ret == old(p.st).ret && p.st.roleRet == old(p.st).roleRet
    ensures r.Never? ==> p.Stopped()
  {
    hide LocalStep, Fold, Laters, Requests.Settled, CommonStep;
    ReleaseSteps(p.cfg, p.role, p.st);
    var _ :- p.Take(Plain);
    ReleaseSteps(p.cfg, p.role, p.st);
    var _ :- p.Take(Plain);
    ReleaseSteps(p.cfg, p.role, p.st);
    var _ :- p.Take(Plain);
    return Got(());
  }

  /** From the role's return to main's. */
  method Leave(p: Process, ret: int) returns (r: Wait<int>)
    requires p.Ended(Returned(ret)) && (p.role.Client? ==> OnlyAddress(p.heap))
    modifies p`pos, p`st, p`heap
    ensures r.Got? ==> p.At(Done) && p.st.ret == r.value && p.st.roleRet == Some(ret)
    ensures r.Got? ==> if ret == 0 && p.cfg.Failure(p.role) == NoFailure then r.value <= 1 else r.value == ret
    ensures r.Got? ==> p.heap == if p.role.Client? then old(p.heap).(peerAddr := None) else old(p.heap)
    ensures r.Never? ==> p.Stopped()
  {
    hide LocalStep, Fold, Laters, Requests.Settled;
    var code := ret;
    if ret == 0 && p.cfg.Failure(p.role) == NoFailure {
      code :- Barrier(p);
    }
    var _ :- CloseSocket(p);
    var _ :- Release(p);
    return Got(code);
  }

  /** main on the client: nothing it allocated is left when it returns. */
  method ClientMain(p: Process) returns (code: Wait<Option<int>>)
    requires p.role.Client? && p.At(CRecvLen) && p.heap == EMPTY && p.ep == NoEp
    modifies p
    ensures code.Got? && code.value.Some? ==>
              p.At(Done) && p.st.ret == code.value.value && p.heap == EMPTY
    ensures code == Got(None) ==> p.Follows() && p.st.pc.Killed?
    ensures code.Never? ==> p.Stopped()
  {
    hide LocalStep, Fold, Laters, Requests.Settled, CallAt;
    code := Never;
    var length, ret, ok := None, -1, false;
    length, ret :- ReceiveLength(p);
    if length.Some? {
      ok, ret :- ReceiveAddress(p, length.value, ret);
    }
    if !ok {
      var _ :- Release(p);
      return Got(Some(ret));
    }
    var end :- ClientCode.RunUcxClient(p);
    if end.Died? {
      return Got(None);
    }
    var exit :- Leave(p, end.ret);
    return Got(Some(exit));
  }

  /** main on the server: of all it allocated, the copy of the client's address may be left. */
  method ServerMain(p: Process) returns (code: Wait<Option<int>>)
    requires p.role.Server? && p.At(SSendLen) && p.heap == EMPTY && p.ep == NoEp && p.output == None
    modifies p
    ensures code.Got? && code.value.Some? ==>
              p.At(Done) && p.st.ret == code.value.value && (p.heap == EMPTY || OnlyAddress(p.heap))
    ensures code == Got(None) ==> p.Follows() && p.st.pc.Killed?
    ensures code.Never? ==> p.Stopped()
  {
    hide LocalStep, Fold, Laters, Requests.Settled, CallAt;
    code := Never;
    var ok, ret;
    ok, ret :- SendAddress(p);
    if !ok {
      var _ :- Release(p);
      return Got(Some(ret));
    }
    var end :- ServerCode.RunServer(p);
    if end.Died? {
      return Got(None);
    }
    var exit :- Leave(p, end.ret);
    return Got(Some(exit));
  }
}
