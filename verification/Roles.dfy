/** The two processes, each as a function from its own state and the result of the call it is making
    to its next state. A program location is a call into UCX, the socket or the allocator; the
    straight-line code after that call, up to the next one, is part of the same step. */
module Roles {
  import opened Wire

  datatype ErrMode = HandleNone | HandlePeer

  datatype FailureMode = NoFailure | SendFailure | RecvFailure | KeepaliveFailure

  datatype ErrHandling = ErrHandling(mode: ErrMode, failure: FailureMode)

  datatype Role = Client | Server {
    function Peer(): Role {
      if Client? then Server else Client
    }
  }

  /** What is fixed for a run: both worker addresses, both -s lengths, both -e settings. */
  datatype Config = Config(clientAddr: seq<byte>, serverAddr: seq<byte>, clientLen: nat, serverLen: nat,
                           clientErr: ErrHandling, serverErr: ErrHandling)
  {
    function Err(r: Role): ErrHandling {
      if r.Client? then clientErr else serverErr
    }

    function Failure(r: Role): FailureMode {
      Err(r).failure
    }

    /** Sizes the code supports: addresses whose length survives the int casts, strings of a long. */
    predicate Valid() {
      && |clientAddr| < TWO_31
      && |serverAddr| < TWO_31
      && clientLen < TWO_64 / 2
      && serverLen < TWO_64 / 2
    }
  }

  datatype Allocator = HostMalloc | MemType

  datatype Block = Block(allocator: Allocator, data: seq<byte>)

  /** The blocks one process may own, one slot for each allocation that outlives a step. */
  datatype Heap = Heap(outMsg: Option<Block>, inMsg: Option<Block>, peerAddr: Option<Block>)

  /** What main acquired before the role starts. */
  datatype Resources = Resources(context: bool, worker: bool, address: bool, sock: bool)

  datatype Ep = NoEp | Open(addr: seq<byte>) | Closed(addr: seq<byte>, force: bool)

  datatype Pc =
    // client main and role
    | CRecvLen | CAllocPeer | CRecvAddr | CCreateEp | CAllocOut | CPostSend | CWaitSend
    | CProbe | CAllocIn | CPostRecv | CWaitRecv | CAllocStr
      // server main and role
    | SSendLen | SSendAddr | SProbe | SAllocIn | SPostRecv | SWaitRecv | SAllocPeer | SCreateEp
    | SAllocOut | SGenAlloc | SPreProgress | SPostSend | SWaitSend | SSpinFailed | SSpinKeepalive
    | SPostFlush | SWaitFlush
      // both
    | PostClose | WaitClose | BarrierSend | BarrierPoll | BarrierRecv
    | CloseSock | ReleaseAddr | DestroyWorker | CleanupCtx | Done | Killed

  // Program order of the locations, role by role.
  const C_RECV_LEN := 0
  const C_ALLOC_PEER := 1
  const C_RECV_ADDR := 2
  const C_CREATE_EP := 3
  const C_ALLOC_OUT := 4
  const C_POST_SEND := 5
  const C_WAIT_SEND := 6
  const C_PROBE := 7
  const C_ALLOC_IN := 8
  const C_POST_RECV := 9
  const C_WAIT_RECV := 10
  const C_ALLOC_STR := 11
  const S_SEND_LEN := 0
  const S_SEND_ADDR := 1
  const S_PROBE := 2
  const S_ALLOC_IN := 3
  const S_POST_RECV := 4
  const S_WAIT_RECV := 5
  const S_ALLOC_PEER := 6
  const S_CREATE_EP := 7
  const S_ALLOC_OUT := 8
  const S_GEN_ALLOC := 9
  const S_PRE_PROGRESS := 10
  const S_POST_SEND := 11
  const S_WAIT_SEND := 12
  const S_SPIN_FAILED := 13
  const S_SPIN_KEEPALIVE := 14
  const S_POST_FLUSH := 15
  const S_WAIT_FLUSH := 16
  const POST_CLOSE := 17
  const WAIT_CLOSE := 18
  const BARRIER_SEND := 19
  const BARRIER_POLL := 20
  const BARRIER_RECV := 21
  const CLOSE_SOCK := 22
  const RELEASE_ADDR := 23
  const DESTROY_WORKER := 24
  const CLEANUP_CTX := 25
  const DONE := 26
  const KILLED := 27

  /** Program order: every step stays where it is or moves to a later location. */
  function Loc(pc: Pc): (n: nat)
    ensures n <= KILLED
  {
    match pc
    case CRecvLen => C_RECV_LEN
    case CAllocPeer => C_ALLOC_PEER
    case CRecvAddr => C_RECV_ADDR
    case CCreateEp => C_CREATE_EP
    case CAllocOut => C_ALLOC_OUT
    case CPostSend => C_POST_SEND
    case CWaitSend => C_WAIT_SEND
    case CProbe => C_PROBE
    case CAllocIn => C_ALLOC_IN
    case CPostRecv => C_POST_RECV
    case CWaitRecv => C_WAIT_RECV
    case CAllocStr => C_ALLOC_STR
    case SSendLen => S_SEND_LEN
    case SSendAddr => S_SEND_ADDR
    case SProbe => S_PROBE
    case SAllocIn => S_ALLOC_IN
    case SPostRecv => S_POST_RECV
    case SWaitRecv => S_WAIT_RECV
    case SAllocPeer => S_ALLOC_PEER
    case SCreateEp => S_CREATE_EP
    case SAllocOut => S_ALLOC_OUT
    case SGenAlloc => S_GEN_ALLOC
    case SPreProgress => S_PRE_PROGRESS
    case SPostSend => S_POST_SEND
    case SWaitSend => S_WAIT_SEND
    case SSpinFailed => S_SPIN_FAILED
    case SSpinKeepalive => S_SPIN_KEEPALIVE
    case SPostFlush => S_POST_FLUSH
    case SWaitFlush => S_WAIT_FLUSH
    case PostClose => POST_CLOSE
    case WaitClose => WAIT_CLOSE
    case BarrierSend => BARRIER_SEND
    case BarrierPoll => BARRIER_POLL
    case BarrierRecv => BARRIER_RECV
    case CloseSock => CLOSE_SOCK
    case ReleaseAddr => RELEASE_ADDR
    case DestroyWorker => DESTROY_WORKER
    case CleanupCtx => CLEANUP_CTX
    case Done => DONE
    case Killed => KILLED
  }

  lemma ClientLocs()
    ensures Loc(CRecvLen) == C_RECV_LEN && Loc(CAllocPeer) == C_ALLOC_PEER
    ensures Loc(CRecvAddr) == C_RECV_ADDR && Loc(CCreateEp) == C_CREATE_EP
    ensures Loc(CAllocOut) == C_ALLOC_OUT && Loc(CPostSend) == C_POST_SEND
    ensures Loc(CWaitSend) == C_WAIT_SEND && Loc(CProbe) == C_PROBE
    ensures Loc(CAllocIn) == C_ALLOC_IN && Loc(CPostRecv) == C_POST_RECV
    ensures Loc(CWaitRecv) == C_WAIT_RECV && Loc(CAllocStr) == C_ALLOC_STR
  {
  }

  lemma ServerLocs()
    ensures Loc(SSendLen) == S_SEND_LEN && Loc(SSendAddr) == S_SEND_ADDR
    ensures Loc(SProbe) == S_PROBE && Loc(SAllocIn) == S_ALLOC_IN
    ensures Loc(SPostRecv) == S_POST_RECV && Loc(SWaitRecv) == S_WAIT_RECV
    ensures Loc(SAllocPeer) == S_ALLOC_PEER && Loc(SCreateEp) == S_CREATE_EP
  {
  }

  lemma ServerSendLocs()
    ensures Loc(SAllocOut) == S_ALLOC_OUT && Loc(SGenAlloc) == S_GEN_ALLOC
    ensures Loc(SPreProgress) == S_PRE_PROGRESS && Loc(SPostSend) == S_POST_SEND
    ensures Loc(SWaitSend) == S_WAIT_SEND && Loc(SSpinFailed) == S_SPIN_FAILED
    ensures Loc(SSpinKeepalive) == S_SPIN_KEEPALIVE
    ensures Loc(SPostFlush) == S_POST_FLUSH && Loc(SWaitFlush) == S_WAIT_FLUSH
  {
  }

  lemma CloseLocs()
    ensures Loc(PostClose) == POST_CLOSE && Loc(WaitClose) == WAIT_CLOSE
    ensures Loc(BarrierSend) == BARRIER_SEND && Loc(BarrierPoll) == BARRIER_POLL
    ensures Loc(BarrierRecv) == BARRIER_RECV && Loc(CloseSock) == CLOSE_SOCK
  {
  }

  lemma TeardownLocs()
    ensures Loc(ReleaseAddr) == RELEASE_ADDR && Loc(DestroyWorker) == DESTROY_WORKER
    ensures Loc(CleanupCtx) == CLEANUP_CTX && Loc(Done) == DONE
    ensures Loc(Killed) == KILLED
  {
  }

  /** The table of Loc, for proofs that hide its body. */
  lemma Locs()
    ensures Loc(CRecvLen) == C_RECV_LEN && Loc(CAllocPeer) == C_ALLOC_PEER
    ensures Loc(CRecvAddr) == C_RECV_ADDR && Loc(CCreateEp) == C_CREATE_EP
    ensures Loc(CAllocOut) == C_ALLOC_OUT && Loc(CPostSend) == C_POST_SEND
    ensures Loc(CWaitSend) == C_WAIT_SEND && Loc(CProbe) == C_PROBE
    ensures Loc(CAllocIn) == C_ALLOC_IN && Loc(CPostRecv) == C_POST_RECV
    ensures Loc(CWaitRecv) == C_WAIT_RECV && Loc(CAllocStr) == C_ALLOC_STR
    ensures Loc(SSendLen) == S_SEND_LEN && Loc(SSendAddr) == S_SEND_ADDR
    ensures Loc(SProbe) == S_PROBE && Loc(SAllocIn) == S_ALLOC_IN
    ensures Loc(SPostRecv) == S_POST_RECV && Loc(SWaitRecv) == S_WAIT_RECV
    ensures Loc(SAllocPeer) == S_ALLOC_PEER && Loc(SCreateEp) == S_CREATE_EP
    ensures Loc(SAllocOut) == S_ALLOC_OUT && Loc(SGenAlloc) == S_GEN_ALLOC
    ensures Loc(SPreProgress) == S_PRE_PROGRESS && Loc(SPostSend) == S_POST_SEND
    ensures Loc(SWaitSend) == S_WAIT_SEND && Loc(SSpinFailed) == S_SPIN_FAILED
    ensures Loc(SSpinKeepalive) == S_SPIN_KEEPALIVE
    ensures Loc(SPostFlush) == S_POST_FLUSH && Loc(SWaitFlush) == S_WAIT_FLUSH
    ensures Loc(PostClose) == POST_CLOSE && Loc(WaitClose) == WAIT_CLOSE
    ensures Loc(BarrierSend) == BARRIER_SEND && Loc(BarrierPoll) == BARRIER_POLL
    ensures Loc(BarrierRecv) == BARRIER_RECV && Loc(CloseSock) == CLOSE_SOCK
    ensures Loc(ReleaseAddr) == RELEASE_ADDR && Loc(DestroyWorker) == DESTROY_WORKER
    ensures Loc(CleanupCtx) == CLEANUP_CTX && Loc(Done) == DONE
    ensures Loc(Killed) == KILLED
  {
    ClientLocs();
    ServerLocs();
    ServerSendLocs();
    CloseLocs();
    TeardownLocs();
    hide Loc;
  }

  /** One process. `roleRet` records what its role function returned, `barrier` what barrier returned,
      `copied` the client's string, `output` what printf made of the string it was given, `overread` a copy
      that ran past its source block, `addrCopied` whether the server copied the client's address and `sent`
      how the send of its own message ended. */
  datatype Proc = Proc(pc: Pc, ret: int, heap: Heap, res: Resources, ep: Ep, epOk: bool, seen: nat,
                       roleRet: Option<int>, barrier: Option<int>, copied: Option<seq<byte>>, output: Option<Print>,
                       overread: bool, addrCopied: bool, sent: Option<bool>)

  /** What one pass of ucp_worker_progress did to this process. */
  datatype Seen =
    | Nothing
    | SendDone(ok: bool)
    | RecvDone(received: bool, data: seq<byte>)
    | OpDone(closed: bool)
    | PeerDown

  datatype Posted = Now | Later | Refused

  /** Results of calls. */
  datatype Obs =
    | Recvd(bytes: seq<byte>, failed: bool)
    | Sent(n: int)
    | Alloc(granted: bool)
    | Created(made: bool)
    | Post(posted: Posted)
    | Probed(length: nat)
    | Progress(seen: Seen)
    | Readable(polled: Seen)
    | Called

  const EMPTY := Heap(None, None, None)

  function Start(r: Role): Proc {
    Proc(if r.Client? then CRecvLen else SSendLen, -1, EMPTY, Resources(true, true, true, true),
         NoEp, true, 0, None, None, None, None, false, false, None)
  }

  function FailureSeen(p: Proc): Proc {
    p.(epOk := false)
  }

  /** What the role's return leads to in main. */
  function AfterRole(failure: FailureMode, p: Proc): Proc {
    p.(roleRet := Some(p.ret), pc := if p.ret == 0 && failure == NoFailure then BarrierSend else CloseSock)
  }

  function FreeOut(p: Proc): Proc {
    p.(heap := p.heap.(outMsg := None))
  }

  function FreeIn(p: Proc): Proc {
    p.(heap := p.heap.(inMsg := None))
  }

  /** The receive's completion: the data lands in the buffer that was posted. */
  function Fill(p: Proc, data: seq<byte>): Proc {
    if p.heap.inMsg.Some? then p.(heap := p.heap.(inMsg := Some(p.heap.inMsg.value.(data := data)))) else p
  }

  function InData(p: Proc): seq<byte> {
    if p.heap.inMsg.Some? then p.heap.inMsg.value.data else []
  }

  function PeerAddr(p: Proc): seq<byte> {
    if p.heap.peerAddr.Some? then p.heap.peerAddr.value.data else []
  }

  /** The length checks of main: both sides are converted to int first. */
  predicate LengthCheck(n: int, expected: nat) {
    ToInt32(n) == ToInt32(expected)
  }

  /** It compares the two modulo 2^32. */
  lemma LengthCheckIs(n: int, expected: nat)
    ensures LengthCheck(n, expected) <==> (n - expected) % 0x1_0000_0000 == 0
  {
    if (n - expected) % 0x1_0000_0000 == 0 {
      SameResidue(n, expected, ToInt32(n));
      ToInt32Unique(expected, ToInt32(n));
    }
    if ToInt32(n) == ToInt32(expected) {
      assert n - expected == (n / 0x1_0000_0000 - expected / 0x1_0000_0000) * 0x1_0000_0000;
    }
  }

  // -------------------------------------------------------------------------------------------
  // Steps shared by both processes: closing, barrier, teardown
  // -------------------------------------------------------------------------------------------

  function CloseFlags(e: ErrHandling): (force: bool) {
    e.mode == HandlePeer
  }

  function CommonStep(cfg: Config, r: Role, p: Proc, o: Obs): Proc {
    match p.pc
    case PostClose =>
      if o.Post? && p.ep.Open? then
        var q := p.(ep := Closed(p.ep.addr, CloseFlags(cfg.Err(r))));
        if o.posted == Later then q.(pc := WaitClose) else AfterRole(cfg.Failure(r), q)
      else p
    case WaitClose =>
      if o.Progress? && o.seen.OpDone? then AfterRole(cfg.Failure(r), p) else p
    case BarrierSend =>
      if o.Sent? then
        if o.n < 0 then p.(ret := o.n, barrier := Some(o.n), pc := CloseSock) else p.(pc := BarrierPoll)
      else p
    case BarrierPoll =>
      if o.Readable? then p.(pc := BarrierRecv) else p
    case BarrierRecv =>
      if o.Recvd? then
        var b := if !o.failed && |o.bytes| == 4 then 0 else 1;
        p.(ret := b, barrier := Some(b), pc := CloseSock)
      else p
    case CloseSock =>
      if o.Called? then
        var q := p.(res := p.res.(sock := false), pc := ReleaseAddr);
        if r.Client? then q.(heap := q.heap.(peerAddr := None)) else q
      else p
    case ReleaseAddr =>
      if o.Called? then p.(res := p.res.(address := false), pc := DestroyWorker) else p
    case DestroyWorker =>
      if o.Called? then p.(res := p.res.(worker := false), pc := CleanupCtx) else p
    case CleanupCtx =>
      if o.Called? then p.(res := p.res.(context := false), pc := Done) else p
    case _ => p
  }

  // -------------------------------------------------------------------------------------------
  // Client
  // -------------------------------------------------------------------------------------------

  /** After the address message has left: free it, die in the recv failure mode, else start receiving. */
  function AddressSent(cfg: Config, p: Proc): Proc {
    var q := FreeOut(p).(sent := Some(true));
    if cfg.clientErr.failure == RecvFailure then q.(pc := Killed)
    else if q.epOk then q.(pc := CProbe)
    else q.(pc := PostClose)
  }

  /** The final copy into the zeroed string, its printing, and the release of both blocks. The string has
      no byte of its own for a NUL: printf finds one in the copied bytes, or reads on past them. */
  function PrintString(cfg: Config, p: Proc): Proc {
    var msg := InData(p);
    var q := FreeIn(p).(ret := 0, pc := PostClose);
    if CopyInBounds(msg, cfg.clientLen) then
      var str := CopyPayload(msg, cfg.clientLen);
      q.(copied := Some(str), output := Some(Printf(str)))
    else q.(overread := true)
  }

  function ClientStep(cfg: Config, p: Proc, o: Obs): Proc {
    match p.pc
    case CRecvLen =>
      if o.Recvd? then
        var n := if o.failed then -1 else |o.bytes|;
        if LengthCheck(n, HEADER) then p.(ret := ToInt32(n), seen := Value(o.bytes), pc := CAllocPeer)
        else p.(ret := ToInt32(n), pc := ReleaseAddr)
      else p
    case CAllocPeer =>
      if o.Alloc? then
        if o.granted then
          p.(heap := p.heap.(peerAddr := Some(Block(HostMalloc, Zeros(p.seen)))), pc := CRecvAddr)
        else p.(pc := ReleaseAddr)
      else p
    case CRecvAddr =>
      if o.Recvd? then
        var n := if o.failed then -1 else |o.bytes|;
        if LengthCheck(n, p.seen) then
          p.(ret := ToInt32(n), heap := p.heap.(peerAddr := Some(Block(HostMalloc, o.bytes))), pc := CCreateEp)
        else p.(ret := ToInt32(n), heap := p.heap.(peerAddr := None), pc := ReleaseAddr)
      else p
    case CCreateEp =>
      if o.Created? then
        var q := p.(ret := -1);
        if o.made then q.(ep := Open(PeerAddr(p)), pc := CAllocOut)
        else AfterRole(cfg.clientErr.failure, q)
      else p
    case CAllocOut =>
      if o.Alloc? then
        if o.granted then
          p.(heap := p.heap.(outMsg := Some(Block(HostMalloc, Frame(cfg.clientAddr)))), pc := CPostSend)
        else p.(pc := PostClose)
      else p
    case CPostSend =>
      if o.Post? then
        match o.posted
        case Now => AddressSent(cfg, p)
        case Later => p.(pc := CWaitSend)
        case Refused => FreeOut(p).(sent := Some(false), pc := PostClose)
      else p
    case CWaitSend =>
      if o == Progress(PeerDown) then FailureSeen(p)
      else if o.Progress? && o.seen.SendDone? then
        if o.seen.ok then AddressSent(cfg, p) else FreeOut(p).(sent := Some(false), pc := PostClose)
      else p
    case CProbe =>
      if o.Probed? then
        if cfg.clientErr.failure == KeepaliveFailure then p.(pc := Killed)
        else p.(seen := o.length, pc := CAllocIn)
      else if o == Progress(PeerDown) then FailureSeen(p).(pc := PostClose)
      else p
    case CAllocIn =>
      if o.Alloc? then
        if o.granted then
          p.(heap := p.heap.(inMsg := Some(Block(MemType, Zeros(p.seen)))), pc := CPostRecv)
        else p.(pc := PostClose)
      else p
    case CPostRecv =>
      if o == Post(Later) then p.(pc := CWaitRecv)
      else if o == Post(Refused) then FreeIn(p).(pc := PostClose)
      else p
    case CWaitRecv =>
      if o == Progress(PeerDown) then FailureSeen(p)
      else if o.Progress? && o.seen.RecvDone? then
        if o.seen.received then Fill(p, o.seen.data).(pc := CAllocStr) else FreeIn(p).(pc := PostClose)
      else p
    case CAllocStr =>
      if o.Alloc? then
        if o.granted then PrintString(cfg, p) else FreeIn(p).(ret := -1, pc := PostClose)
      else p
    case _ => CommonStep(cfg, Client, p, o)
  }

  // -------------------------------------------------------------------------------------------
  // Server
  // -------------------------------------------------------------------------------------------

  /** The address message is in: die in the send failure mode, else read its length field. */
  function AddressReceived(cfg: Config, p: Proc): Proc {
    if cfg.serverErr.failure == SendFailure then FreeIn(p).(pc := Killed)
    else p.(seen := DataLen(InData(p)), pc := SAllocPeer)
  }

  /** memcpy of the address out of the message, then free of the message. */
  function CopyAddress(p: Proc): Proc {
    var msg := InData(p);
    var inside := CopyInBounds(msg, p.seen);
    FreeIn(p).(heap := FreeIn(p).heap.(peerAddr :=
        Some(Block(HostMalloc, if inside then CopyPayload(msg, p.seen) else Zeros(p.seen)))),
               overread := p.overread || !inside,
               addrCopied := true,
               pc := SCreateEp)
  }

  /** ret before anything is sent: peer-failure tests count a missing endpoint as success. */
  function EpRet(failure: FailureMode): int {
    if failure != NoFailure then 0 else -1
  }

  function DataSent(cfg: Config, p: Proc): Proc {
    if cfg.serverErr.failure == KeepaliveFailure && p.epOk then p.(sent := Some(true), pc := SSpinKeepalive)
    else p.(sent := Some(true), pc := SPostFlush)
  }

  function SendFailed(cfg: Config, p: Proc): Proc {
    if cfg.serverErr.failure != NoFailure then FreeOut(p).(sent := Some(false), ret := -1, pc := PostClose)
    else if p.epOk then p.(sent := Some(false), ret := 0, pc := SSpinFailed)
    else FreeOut(p).(sent := Some(false), ret := 0, pc := PostClose)
  }

  function FlushReturned(p: Proc): Proc {
    FreeOut(p).(ret := 0, pc := PostClose)
  }

  function ServerStep(cfg: Config, p: Proc, o: Obs): Proc {
    match p.pc
    case SSendLen =>
      if o.Sent? then
        if LengthCheck(o.n, HEADER) then p.(ret := ToInt32(o.n), pc := SSendAddr)
        else p.(ret := ToInt32(o.n), pc := ReleaseAddr)
      else p
    case SSendAddr =>
      if o.Sent? then
        if LengthCheck(o.n, |cfg.serverAddr|) then p.(ret := ToInt32(o.n), pc := SProbe)
        else p.(ret := ToInt32(o.n), pc := ReleaseAddr)
      else p
    case SProbe =>
      if o.Probed? then p.(seen := o.length, pc := SAllocIn) else p
    case SAllocIn =>
      if o.Alloc? then
        if o.granted then
          p.(heap := p.heap.(inMsg := Some(Block(HostMalloc, Zeros(p.seen)))), pc := SPostRecv)
        else AfterRole(cfg.serverErr.failure, p.(ret := -1))
      else p
    case SPostRecv =>
      if o == Post(Later) then p.(pc := SWaitRecv)
      else if o == Post(Refused) then AfterRole(cfg.serverErr.failure, FreeIn(p).(ret := -1))
      else p
    case SWaitRecv =>
      if o.Progress? && o.seen.RecvDone? then
        if o.seen.received then AddressReceived(cfg, Fill(p, o.seen.data))
        else AfterRole(cfg.serverErr.failure, FreeIn(p).(ret := -1))
      else p
    case SAllocPeer =>
      if o.Alloc? then
        if o.granted then CopyAddress(p)
        else AfterRole(cfg.serverErr.failure, FreeIn(p).(ret := -1))
      else p
    case SCreateEp =>
      if o.Created? then
        var q := p.(ret := EpRet(cfg.serverErr.failure));
        if o.made then q.(ep := Open(PeerAddr(p)), pc := SAllocOut)
        else AfterRole(cfg.serverErr.failure, q)
      else p
    case SAllocOut =>
      if o.Alloc? then
        if o.granted then
          p.(heap := p.heap.(outMsg := Some(Block(MemType, Frame(Zeros(cfg.serverLen))))), pc := SGenAlloc)
        else p.(ret := -1, pc := PostClose)
      else p
    case SGenAlloc =>
      if o.Alloc? then
        if o.granted && ToInt32(cfg.serverLen) >= 0 then
          p.(heap := p.heap.(outMsg := Some(Block(MemType, Frame(ServerPayload(cfg.serverLen))))),
             output := Some(Printf(ServerPayload(cfg.serverLen))), ret := 0, pc := SPreProgress)
        else FreeOut(p).(ret := -1, pc := PostClose)
      else p
    case SPreProgress =>
      if o == Progress(PeerDown) then FailureSeen(p).(pc := SPostSend)
      else if o.Progress? then p.(pc := SPostSend)
      else p
    case SPostSend =>
      if o.Post? then
        match o.posted
        case Now => DataSent(cfg, p)
        case Later => p.(pc := SWaitSend)
        case Refused => SendFailed(cfg, p)
      else p
    case SWaitSend =>
      if o == Progress(PeerDown) then FailureSeen(p)
      else if o.Progress? && o.seen.SendDone? then
        if o.seen.ok then DataSent(cfg, p) else SendFailed(cfg, p)
      else p
    case SSpinFailed =>
      if o == Progress(PeerDown) then FreeOut(FailureSeen(p)).(pc := PostClose) else p
    case SSpinKeepalive =>
      if o == Progress(PeerDown) then FailureSeen(p).(pc := SPostFlush) else p
    case SPostFlush =>
      if o.Post? then
        if o.posted == Later then p.(pc := SWaitFlush) else FlushReturned(p)
      else p
    case SWaitFlush =>
      if o == Progress(PeerDown) then FailureSeen(p)
      else if o.Progress? && o.seen.OpDone? then FlushReturned(p)
      else p
    case _ => CommonStep(cfg, Server, p, o)
  }

  function LocalStep(cfg: Config, r: Role, p: Proc, o: Obs): Proc {
    if r.Client? then ClientStep(cfg, p, o) else ServerStep(cfg, p, o)
  }
}
