/** What holds in every reachable state, whatever fails. */
module Safety {
  import opened Wire
  import opened Roles
  import opened Machine

  // -------------------------------------------------------------------------------------------
  // Each process alone
  // -------------------------------------------------------------------------------------------

  /** main releases address, worker and context in that order; the socket was closed before them
      exactly when the role function ran to its return. */
  predicate ResourcesOk(p: Proc) {
    match p.pc
    case ReleaseAddr => p.res == Resources(true, true, true, p.roleRet == None)
    case DestroyWorker => p.res == Resources(true, true, false, p.roleRet == None)
    case CleanupCtx => p.res == Resources(true, false, false, p.roleRet == None)
    case Done => p.res == Resources(false, false, false, p.roleRet == None)
    case _ => p.res == Resources(true, true, true, true)
  }

  function PeerOnly(addr: seq<byte>): Heap {
    EMPTY.(peerAddr := Some(Block(HostMalloc, addr)))
  }

  predicate PeerAnd(addr: seq<byte>, h: Heap, allocator: Allocator, n: nat) {
    && h.inMsg.Some?
    && h == PeerOnly(addr).(inMsg := h.inMsg)
    && h.inMsg.value.allocator == allocator
    && |h.inMsg.value.data| == n
  }

  /** The frame the client must end up with. */
  function DataFrame(cfg: Config): seq<byte> {
    if ToInt32(cfg.serverLen) >= 0 then Frame(ServerPayload(cfg.serverLen)) else []
  }

  /** What a successful client has copied and printed, or the copy that went past the message. */
  predicate Delivered(cfg: Config, p: Proc) {
    && ToInt32(cfg.serverLen) >= 0
    && (if cfg.clientLen <= cfg.serverLen then
          && p.copied == Some(ServerPayload(cfg.serverLen)[..cfg.clientLen]) && !p.overread
          && p.output == Some(Printf(ServerPayload(cfg.serverLen)[..cfg.clientLen]))
        else p.copied == None && p.output == None && p.overread)
  }

  predicate Quiet(p: Proc) {
    p.copied == None && p.output == None && !p.overread
  }

  /** roleRet and barrier are set at the role's return and the barrier's, and not before. */
  predicate Progressed(failure: FailureMode, l: nat, p: Proc) {
    && (l < BARRIER_SEND || l == KILLED ==> p.roleRet == None)
    && (l < CLOSE_SOCK || l == KILLED ==> p.barrier == None)
    && (BARRIER_SEND <= l < CLOSE_SOCK || p.barrier.Some? ==> p.roleRet == Some(0) && failure == NoFailure)
    && (l == CLOSE_SOCK ==> p.roleRet.Some?)
    && (CLOSE_SOCK <= l < KILLED && p.roleRet == Some(0) && failure == NoFailure ==> p.barrier.Some?)
    && (p.barrier.Some? ==> p.ret == p.barrier.value)
  }

  predicate ClientOk(cfg: Config, p: Proc) {
    && ResourcesOk(p)
    && Progressed(cfg.clientErr.failure, Loc(p.pc), p)
    && (p.roleRet == Some(0) ==> Delivered(cfg, p))
    && (Loc(p.pc) < POST_CLOSE || p.pc.Killed? ==> Quiet(p))
    && (Loc(p.pc) > WAIT_CLOSE && p.roleRet != Some(0) ==> Quiet(p))
    && match p.pc
       case CRecvLen => p.heap == EMPTY && p.ep == NoEp
       case CAllocPeer => p.heap == EMPTY && p.ep == NoEp && p.seen == |cfg.serverAddr|
       case CRecvAddr =>
         && p.ep == NoEp && p.seen == |cfg.serverAddr|
         && p.heap.peerAddr.Some? && p.heap == PeerOnly(p.heap.peerAddr.value.data)
       case CCreateEp => p.heap == PeerOnly(cfg.serverAddr) && p.ep == NoEp
       case CAllocOut | CProbe | CAllocIn =>
         p.heap == PeerOnly(cfg.serverAddr) && p.ep == Open(cfg.serverAddr) && p.ret == -1
       case CPostSend | CWaitSend =>
         && p.heap == PeerOnly(cfg.serverAddr).(outMsg := Some(Block(HostMalloc, Frame(cfg.clientAddr))))
         && p.ep == Open(cfg.serverAddr) && p.ret == -1
       case CPostRecv | CWaitRecv =>
         && PeerAnd(cfg.serverAddr, p.heap, MemType, p.seen)
         && p.ep == Open(cfg.serverAddr) && p.ret == -1
       case CAllocStr =>
         && p.heap == PeerOnly(cfg.serverAddr).(inMsg := Some(Block(MemType, DataFrame(cfg))))
         && ToInt32(cfg.serverLen) >= 0
         && p.ep == Open(cfg.serverAddr) && p.ret == -1
       case PostClose =>
         && p.heap == PeerOnly(cfg.serverAddr) && p.ep == Open(cfg.serverAddr)
         && ((p.ret == 0 && Delivered(cfg, p)) || (p.ret == -1 && Quiet(p)))
       case WaitClose =>
         && p.heap == PeerOnly(cfg.serverAddr)
         && p.ep == Closed(cfg.serverAddr, CloseFlags(cfg.clientErr))
         && ((p.ret == 0 && Delivered(cfg, p)) || (p.ret == -1 && Quiet(p)))
       case BarrierSend | BarrierPoll | BarrierRecv =>
         && p.heap == PeerOnly(cfg.serverAddr)
         && p.ep == Closed(cfg.serverAddr, CloseFlags(cfg.clientErr))
       case CloseSock =>
         && p.heap == PeerOnly(cfg.serverAddr)
         && (p.ep == NoEp || p.ep == Closed(cfg.serverAddr, CloseFlags(cfg.clientErr)))
       case ReleaseAddr | DestroyWorker | CleanupCtx | Done =>
         && p.heap == EMPTY
         && (p.ep == NoEp || p.ep == Closed(cfg.serverAddr, CloseFlags(cfg.clientErr)))
       case Killed =>
         && p.ep == Open(cfg.serverAddr)
         && (cfg.clientErr.failure == RecvFailure || cfg.clientErr.failure == KeepaliveFailure)
       case _ => false
  }

  /** The server never frees peer_addr: at the end it holds that block or nothing. */
  predicate PeerAtMost(addr: seq<byte>, h: Heap) {
    h == EMPTY || h == PeerOnly(addr)
  }

  /** The server prints its payload once it is generated, and nothing else. */
  predicate ServerOutput(cfg: Config, p: Proc) {
    && (p.output.Some? ==> ToInt32(cfg.serverLen) >= 0 && p.output.value == Printf(ServerPayload(cfg.serverLen)))
    && (Loc(p.pc) <= S_GEN_ALLOC || p.pc.Killed? ==> p.output == None)
    && (S_PRE_PROGRESS <= Loc(p.pc) <= S_WAIT_FLUSH ==> p.output.Some?)
  }

  predicate ServerOk(cfg: Config, p: Proc) {
    && ResourcesOk(p)
    && Progressed(cfg.serverErr.failure, Loc(p.pc), p)
    && p.copied == None && !p.overread
    && ServerOutput(cfg, p)
    && (p.addrCopied <==> p.heap.peerAddr.Some?)
    && match p.pc
       case SSendLen | SSendAddr | SProbe | SAllocIn => p.heap == EMPTY && p.ep == NoEp
       case SPostRecv | SWaitRecv =>
         && p.heap.inMsg.Some? && p.heap == EMPTY.(inMsg := p.heap.inMsg)
         && p.heap.inMsg.value.allocator == HostMalloc && |p.heap.inMsg.value.data| == p.seen
         && p.ep == NoEp
       case SAllocPeer =>
         && p.heap == EMPTY.(inMsg := Some(Block(HostMalloc, Frame(cfg.clientAddr))))
         && p.seen == |cfg.clientAddr| && p.ep == NoEp
       case SCreateEp => p.heap == PeerOnly(cfg.clientAddr) && p.ep == NoEp
       case SAllocOut => p.heap == PeerOnly(cfg.clientAddr) && p.ep == Open(cfg.clientAddr)
       case SGenAlloc =>
         && p.heap == PeerOnly(cfg.clientAddr).(outMsg := Some(Block(MemType, Frame(Zeros(cfg.serverLen)))))
         && p.ep == Open(cfg.clientAddr)
       case SPreProgress | SPostSend | SWaitSend | SSpinFailed | SSpinKeepalive | SPostFlush | SWaitFlush =>
         && ToInt32(cfg.serverLen) >= 0
         && p.heap == PeerOnly(cfg.clientAddr).(outMsg := Some(Block(MemType, DataFrame(cfg))))
         && p.ep == Open(cfg.clientAddr)
         && (p.pc.SSpinFailed? ==> cfg.serverErr.failure == NoFailure)
         && (p.pc.SSpinKeepalive? ==> cfg.serverErr.failure == KeepaliveFailure)
       case PostClose => p.heap == PeerOnly(cfg.clientAddr) && p.ep == Open(cfg.clientAddr)
       case WaitClose | BarrierSend | BarrierPoll | BarrierRecv =>
         p.heap == PeerOnly(cfg.clientAddr) && p.ep == Closed(cfg.clientAddr, CloseFlags(cfg.serverErr))
       case CloseSock | ReleaseAddr | DestroyWorker | CleanupCtx | Done =>
         && PeerAtMost(cfg.clientAddr, p.heap)
         && (p.ep == NoEp || (p.ep == Closed(cfg.clientAddr, CloseFlags(cfg.serverErr)) && p.heap != EMPTY))
       case Killed => cfg.serverErr.failure == SendFailure && p.ep == NoEp && p.heap == EMPTY
       case _ => false
  }

  // -------------------------------------------------------------------------------------------
  // One tag channel
  // -------------------------------------------------------------------------------------------

  /** Where a role posts its send, and where it probes; the locations that follow have fixed distances. */
  function PostAt(r: Role): nat {
    if r.Client? then C_POST_SEND else S_POST_SEND
  }

  function ProbeAt(r: Role): nat {
    if r.Client? then C_PROBE else S_PROBE
  }

  predicate SendPending(r: Role, l: nat) {
    l == PostAt(r) + 1
  }

  /** Between the probe and the posted receive. */
  predicate Holding(r: Role, l: nat) {
    ProbeAt(r) < l < ProbeAt(r) + 3
  }

  predicate Receiving(r: Role, l: nat) {
    l == ProbeAt(r) + 3
  }

  predicate HasReceived(r: Role, l: nat) {
    ProbeAt(r) + 3 < l < POST_CLOSE
  }

  /** At most one message was ever sent on the channel, it carries the tag and the frame, an unread
      buffer belongs to a send that is still waited for, and its stage matches the receiver's location. */
  predicate ChannelOk(frame: seq<byte>, ts: seq<Transfer>, from: Role, sl: nat, rl: nat, seen: nat) {
    var to := from.Peer();
    && |ts| <= 1
    && (sl <= PostAt(from) ==> ts == [])
    && (SendPending(from, sl) || Holding(to, rl) || Receiving(to, rl) || HasReceived(to, rl) ==> ts != [])
    && (ts != [] ==>
          var t := ts[0];
          && |frame| > 0
          && t.tag == TAG
          && t.len == |frame|
          && (t.data.Some? ==> t.data.value == frame)
          && (t.kind.Eager? ==> t.data.Some?)
          && (t.data.None? && !t.aborted ==> SendPending(from, sl))
          && (rl <= ProbeAt(to) ==> t.stage.OnWire? || t.stage.Unexpected?)
          && (Holding(to, rl) ==> t.stage.Claimed? && seen == t.len)
          && (Receiving(to, rl) ==> seen == t.len)
          && (Receiving(to, rl) <==> t.stage.Matched?)
          && (HasReceived(to, rl) ==> t.stage.Received? && t.data.Some?))
  }

  // -------------------------------------------------------------------------------------------
  // The two byte streams
  // -------------------------------------------------------------------------------------------

  function Preamble(cfg: Config): seq<byte> {
    Bytes(|cfg.serverAddr|, HEADER) + cfg.serverAddr
  }

  /** Server to client: length, address, token, always a prefix of that, written and read in step
      with the two locations. */
  predicate ServerStreamOk(cfg: Config, st: Stream, sl: nat, roleRet: Option<int>, cl: nat, barrier: Option<int>) {
    && st.Valid()
    && st.sent <= Preamble(cfg) + TOKEN
    && (sl == S_SEND_LEN ==> st.sent == [])
    && (sl == S_SEND_ADDR ==> st.sent == Bytes(|cfg.serverAddr|, HEADER))
    && (S_PROBE <= sl <= BARRIER_SEND || sl == KILLED ==> st.sent == Preamble(cfg))
    && (BARRIER_POLL <= sl <= CLOSE_SOCK ==> Preamble(cfg) <= st.sent)
    && (|st.sent| > |Preamble(cfg)| ==> roleRet == Some(0))
    && (cl == C_RECV_LEN ==> st.taken == 0)
    && (cl == C_ALLOC_PEER || cl == C_RECV_ADDR ==> st.taken == HEADER)
    && (C_CREATE_EP <= cl < CLOSE_SOCK || cl == KILLED ==> st.taken == |Preamble(cfg)|)
    && (barrier == Some(0) ==> st.taken == |Preamble(cfg)| + |TOKEN|)
  }

  /** Client to server: nothing but the token. */
  predicate ClientStreamOk(st: Stream, cl: nat, roleRet: Option<int>, barrier: Option<int>) {
    && st.Valid()
    && st.sent <= TOKEN
    && (cl <= BARRIER_SEND || cl == KILLED ==> st.sent == [])
    && (st.sent != [] ==> roleRet == Some(0))
    && (barrier == None ==> st.taken == 0)
    && (barrier == Some(0) ==> st.taken == |TOKEN|)
  }

  /** The message each role sends. */
  function FrameOf(cfg: Config, r: Role): seq<byte> {
    if r.Client? then Frame(cfg.clientAddr) else DataFrame(cfg)
  }

  predicate OutOk(cfg: Config, s: State, r: Role) {
    ChannelOk(FrameOf(cfg, r), s.Out(r), r, Loc(s.P(r).pc), Loc(s.P(r.Peer()).pc), s.P(r.Peer()).seen)
  }

  predicate StreamsOk(cfg: Config, s: State) {
    && ServerStreamOk(cfg, s.oobSC, Loc(s.s.pc), s.s.roleRet, Loc(s.c.pc), s.c.barrier)
    && ClientStreamOk(s.oobCS, Loc(s.c.pc), s.c.roleRet, s.s.barrier)
  }

  predicate ProcOk(cfg: Config, r: Role, p: Proc) {
    if r.Client? then ClientOk(cfg, p) else ServerOk(cfg, p)
  }

  /** The invariant of all runs. */
  predicate Inv(cfg: Config, s: State) {
    && ClientOk(cfg, s.c)
    && ServerOk(cfg, s.s)
    && OutOk(cfg, s, Client)
    && OutOk(cfg, s, Server)
    && StreamsOk(cfg, s)
    && !s.dangling
  }

  /** The invariant taken apart, for proofs that hide its parts. */
  lemma InvBreaks(cfg: Config, s: State)
    requires Inv(cfg, s)
    ensures ClientOk(cfg, s.c) && ServerOk(cfg, s.s) && StreamsOk(cfg, s) && !s.dangling
    ensures OutOk(cfg, s, Client) && OutOk(cfg, s, Server)
  {
    hide ClientOk, ServerOk, StreamsOk, OutOk;
  }

  /** t differs from s at most in the messages that r sent: only OutOk of r looks at them. */
  lemma InvAside(cfg: Config, s: State, t: State, r: Role)
    requires ProcOk(cfg, r, s.P(r)) && ProcOk(cfg, r.Peer(), s.P(r.Peer())) && StreamsOk(cfg, s) && !t.dangling
    requires t.c == s.c && t.s == s.s && t.oobCS == s.oobCS && t.oobSC == s.oobSC && t.Out(r.Peer()) == s.Out(r.Peer())
    requires OutOk(cfg, t, r) && OutOk(cfg, s, r.Peer())
    ensures Inv(cfg, t)
  {
    hide Loc, ClientOk, ServerOk, ServerStreamOk, ClientStreamOk, ChannelOk, FrameOf;
  }

  lemma InitInv(cfg: Config)
    ensures Inv(cfg, Init())
  {
    Locs();
    hide Loc;
  }

  // -------------------------------------------------------------------------------------------
  // What a local move must respect
  // -------------------------------------------------------------------------------------------

  /** First location of each role after the address exchange. */
  function RoleAt(r: Role): nat {
    if r.Client? then C_CREATE_EP else S_PROBE
  }

  /** Forward, and without crossing a point at which a stream is written or read. */
  predicate Forward(r: Role, p: Proc, q: Proc) {
    var l, m := Loc(p.pc), Loc(q.pc);
    && l <= m
    && (m < RoleAt(r) ==> if r.Client? then m == l || l == 1 else m == l)
    && (RoleAt(r) <= m <= CLOSE_SOCK || m == KILLED ==> RoleAt(r) <= l)
    && (RoleAt(r) <= m <= BARRIER_SEND || m == KILLED ==> l <= BARRIER_SEND || l == KILLED)
    && (p.roleRet == Some(0) ==> q.roleRet == Some(0))
    && q.barrier == p.barrier
  }

  predicate SenderStill(r: Role, p: Proc, q: Proc) {
    SendPending(r, Loc(p.pc)) == SendPending(r, Loc(q.pc))
  }

  predicate ReceiverStill(r: Role, p: Proc, q: Proc) {
    var l, m := Loc(p.pc), Loc(q.pc);
    && Receiving(r, l) == Receiving(r, m)
    && (Holding(r, m) ==> Holding(r, l))
    && (HasReceived(r, m) ==> HasReceived(r, l))
    && (Holding(r, m) || Receiving(r, m) ==> q.seen == p.seen)
  }

  /** A move that changes nothing the shared part of the invariant looks at. */
  predicate QuietMove(r: Role, p: Proc, q: Proc) {
    Forward(r, p, q) && SenderStill(r, p, q) && ReceiverStill(r, p, q)
  }

  lemma StreamsStill(cfg: Config, s: State, r: Role, q: Proc)
    requires StreamsOk(cfg, s) && Forward(r, s.P(r), q)
    ensures StreamsOk(cfg, s.WithP(r, q))
  {
    Locs();
    hide Loc;
  }

  lemma OutStill(cfg: Config, s: State, r: Role, q: Proc)
    requires OutOk(cfg, s, r) && Loc(s.P(r).pc) <= Loc(q.pc) && SenderStill(r, s.P(r), q)
    ensures OutOk(cfg, s.WithP(r, q), r)
  {
    Locs();
    hide Loc;
  }

  lemma InStill(cfg: Config, s: State, r: Role, q: Proc)
    requires OutOk(cfg, s, r.Peer()) && Loc(s.P(r).pc) <= Loc(q.pc) && ReceiverStill(r, s.P(r), q)
    ensures OutOk(cfg, s.WithP(r, q), r.Peer())
  {
    Locs();
    hide Loc;
  }

  lemma QuietInv(cfg: Config, s: State, r: Role, q: Proc)
    requires Inv(cfg, s) && QuietMove(r, s.P(r), q) && ProcOk(cfg, r, q)
    ensures Inv(cfg, s.WithP(r, q))
  {
    StreamsStill(cfg, s, r, q);
    OutStill(cfg, s, r, q);
    InStill(cfg, s, r, q);
    hide StreamsOk, OutOk, ProcOk, ClientOk, ServerOk, QuietMove;
  }

  // -------------------------------------------------------------------------------------------
  // Client, one kind of call at a time
  // -------------------------------------------------------------------------------------------

  lemma ClientAlloc(cfg: Config, p: Proc, granted: bool)
    requires cfg.Valid() && ClientOk(cfg, p)
    requires p.pc.CAllocPeer? || p.pc.CAllocOut? || p.pc.CAllocIn? || p.pc.CAllocStr?
    ensures var q := ClientStep(cfg, p, Alloc(granted)); ClientOk(cfg, q) && QuietMove(Client, p, q)
  {
    if p.pc.CAllocStr? {
      ClientAllocStr(cfg, p, granted);
    } else {
      Locs();
      hide Loc, CommonStep, PrintString;
    }
  }

  lemma ClientAllocStr(cfg: Config, p: Proc, granted: bool)
    requires cfg.Valid() && ClientOk(cfg, p) && p.pc.CAllocStr?
    ensures var q := ClientStep(cfg, p, Alloc(granted)); ClientOk(cfg, q) && QuietMove(Client, p, q)
  {
    Locs();
    hide Loc, CommonStep, Printf, ServerPayload, Frame, Zeros, CopyPayload, Bytes, Value, FirstNul;
    FrameRoundTrip(ServerPayload(cfg.serverLen), cfg.clientLen);
  }

  lemma ClientCreate(cfg: Config, p: Proc, made: bool)
    requires cfg.Valid() && ClientOk(cfg, p) && p.pc.CCreateEp?
    ensures var q := ClientStep(cfg, p, Created(made)); ClientOk(cfg, q) && QuietMove(Client, p, q)
  {
    Locs();
    hide Loc, CommonStep;
  }

  lemma ClientHandler(cfg: Config, p: Proc)
    requires cfg.Valid() && ClientOk(cfg, p)
    requires p.pc.CWaitSend? || p.pc.CProbe? || p.pc.CWaitRecv? || p.pc.WaitClose?
    ensures var q := ClientStep(cfg, p, Progress(PeerDown)); ClientOk(cfg, q) && QuietMove(Client, p, q)
  {
    Locs();
    hide Loc;
  }

  lemma ClientSend(cfg: Config, p: Proc, o: Obs)
    requires cfg.Valid() && ClientOk(cfg, p)
    requires (p.pc.CPostSend? && o.Post?) || (p.pc.CWaitSend? && o.Progress? && o.seen.SendDone?)
    ensures var q := ClientStep(cfg, p, o);
            && ClientOk(cfg, q) && Forward(Client, p, q) && ReceiverStill(Client, p, q)
            && (q.pc.CWaitSend? <==> o == Post(Later)) && Loc(q.pc) > C_POST_SEND
            && (SendPending(Client, Loc(q.pc)) <==> o == Post(Later))
  {
    Locs();
    hide Loc, CommonStep;
  }

  lemma ClientReceive(cfg: Config, p: Proc, o: Obs)
    requires cfg.Valid() && ClientOk(cfg, p)
    requires (p.pc.CPostRecv? && o in {Post(Later), Post(Refused)})
          || (p.pc.CWaitRecv? && o.Progress? && o.seen.RecvDone?)
    requires o.Progress? && o.seen.received ==> o.seen.data == DataFrame(cfg) && p.seen == |DataFrame(cfg)| > 0
    ensures var q := ClientStep(cfg, p, o);
            && ClientOk(cfg, q) && Forward(Client, p, q) && SenderStill(Client, p, q)
            && (if o == Post(Later) then q.pc.CWaitRecv? && q.seen == p.seen
                else if o.Progress? && o.seen.received then q.pc.CAllocStr? else q.pc.PostClose?)
  {
    Locs();
    hide Loc, CommonStep;
  }

  lemma ClientProbed(cfg: Config, p: Proc, len: nat)
    requires cfg.Valid() && ClientOk(cfg, p) && p.pc.CProbe?
    ensures var q := ClientStep(cfg, p, Probed(len));
            && ClientOk(cfg, q) && Forward(Client, p, q) && SenderStill(Client, p, q)
            && (q.pc.Killed? || (q.pc.CAllocIn? && q.seen == len))
  {
    Locs();
    hide Loc, CommonStep;
  }

  /** The address exchange: what the client accepts as length and address is what the server wrote. */
  lemma ClientExchange(cfg: Config, p: Proc, o: Obs)
    requires cfg.Valid() && ClientOk(cfg, p) && o.Recvd?
    requires p.pc.CRecvLen? || p.pc.CRecvAddr?
    requires p.pc.CRecvLen? ==> |o.bytes| <= HEADER
    requires p.pc.CRecvLen? && |o.bytes| == HEADER ==> o.bytes == Bytes(|cfg.serverAddr|, HEADER)
    requires p.pc.CRecvAddr? ==> |o.bytes| <= p.seen && (|o.bytes| == p.seen ==> o.bytes == cfg.serverAddr)
    ensures var q := ClientStep(cfg, p, o);
            && ClientOk(cfg, q) && q.barrier == p.barrier
            && (if p.pc.CRecvLen? && !o.failed && |o.bytes| == HEADER then q.pc.CAllocPeer?
                else if p.pc.CRecvAddr? && !o.failed && |o.bytes| == p.seen then q.pc.CCreateEp?
                else q.pc.ReleaseAddr?)
  {
    hide Loc, CommonStep, Bytes, Value;
    Locs();
    Power256Of8();
    BytesRoundTrip(|cfg.serverAddr|, HEADER);
    ToInt32Identity(|o.bytes|);
    ToInt32Identity(-1);
    ToInt32Identity(HEADER);
    ToInt32Identity(|cfg.serverAddr|);
  }

  // -------------------------------------------------------------------------------------------
  // Server, one kind of call at a time
  // -------------------------------------------------------------------------------------------

  lemma ServerAlloc(cfg: Config, p: Proc, granted: bool)
    requires cfg.Valid() && ServerOk(cfg, p)
    requires p.pc.SAllocIn? || p.pc.SAllocPeer? || p.pc.SAllocOut? || p.pc.SGenAlloc?
    ensures var q := ServerStep(cfg, p, Alloc(granted)); ServerOk(cfg, q) && QuietMove(Server, p, q)
  {
    hide ServerStep, ServerOk, QuietMove;
    if p.pc.SAllocIn? || p.pc.SAllocPeer? { ServerAllocIn(cfg, p, granted); } else { ServerAllocOut(cfg, p, granted); }
  }

  lemma ServerAllocIn(cfg: Config, p: Proc, granted: bool)
    requires cfg.Valid() && ServerOk(cfg, p) && (p.pc.SAllocIn? || p.pc.SAllocPeer?)
    ensures var q := ServerStep(cfg, p, Alloc(granted)); ServerOk(cfg, q) && QuietMove(Server, p, q)
  {
    Locs();
    FrameRoundTrip(cfg.clientAddr, |cfg.clientAddr|);
    hide Loc, CommonStep;
  }

  lemma ServerAllocOut(cfg: Config, p: Proc, granted: bool)
    requires cfg.Valid() && ServerOk(cfg, p) && (p.pc.SAllocOut? || p.pc.SGenAlloc?)
    ensures var q := ServerStep(cfg, p, Alloc(granted)); ServerOk(cfg, q) && QuietMove(Server, p, q)
  {
    Locs();
    hide Loc, CommonStep;
  }

  lemma ServerCreate(cfg: Config, p: Proc, made: bool)
    requires cfg.Valid() && ServerOk(cfg, p) && p.pc.SCreateEp?
    ensures var q := ServerStep(cfg, p, Created(made)); ServerOk(cfg, q) && QuietMove(Server, p, q)
  {
    Locs();
    hide Loc, CommonStep;
  }

  lemma ServerHandler(cfg: Config, p: Proc)
    requires cfg.Valid() && ServerOk(cfg, p) && p.ep.Open?
    requires p.pc.SWaitSend? || p.pc.SSpinFailed? || p.pc.SSpinKeepalive? || p.pc.SWaitFlush? || p.pc.SPreProgress?
    ensures var q := ServerStep(cfg, p, Progress(PeerDown)); ServerOk(cfg, q) && QuietMove(Server, p, q)
  {
    Locs();
    hide Loc, CommonStep, Printf, ServerPayload, Frame, Zeros, CopyPayload, Bytes, Value, FirstNul;
  }

  lemma ServerPass(cfg: Config, p: Proc)
    requires cfg.Valid() && ServerOk(cfg, p) && p.pc.SPreProgress?
    ensures var q := ServerStep(cfg, p, Progress(Nothing)); ServerOk(cfg, q) && QuietMove(Server, p, q)
  {
    Locs();
    hide Loc, CommonStep;
  }

  lemma ServerSend(cfg: Config, p: Proc, o: Obs)
    requires cfg.Valid() && ServerOk(cfg, p)
    requires (p.pc.SPostSend? && o.Post?) || (p.pc.SWaitSend? && o.Progress? && o.seen.SendDone?)
    ensures var q := ServerStep(cfg, p, o);
            && ServerOk(cfg, q) && Forward(Server, p, q) && ReceiverStill(Server, p, q)
            && (q.pc.SWaitSend? <==> o == Post(Later)) && Loc(q.pc) > S_POST_SEND
            && (SendPending(Server, Loc(q.pc)) <==> o == Post(Later))
  {
    Locs();
    hide Loc, CommonStep;
  }

  lemma ServerReceive(cfg: Config, p: Proc, o: Obs)
    requires cfg.Valid() && ServerOk(cfg, p)
    requires (p.pc.SPostRecv? && o in {Post(Later), Post(Refused)})
          || (p.pc.SWaitRecv? && o.Progress? && o.seen.RecvDone?)
    requires o.Progress? && o.seen.received ==>
               o.seen.data == Frame(cfg.clientAddr) && p.seen == |Frame(cfg.clientAddr)|
    ensures var q := ServerStep(cfg, p, o);
            && ServerOk(cfg, q) && Forward(Server, p, q) && SenderStill(Server, p, q)
            && (if o == Post(Later) then q.pc.SWaitRecv? && q.seen == p.seen
                else if o.Progress? && o.seen.received then q.pc.SAllocPeer? || q.pc.Killed?
                else q.pc.CloseSock?)
  {
    if o.Progress? && o.seen.received {
      ServerReceived(cfg, p, o.seen.data);
    } else {
      Locs();
      hide Loc, CommonStep, AddressReceived;
    }
  }

  lemma ServerReceived(cfg: Config, p: Proc, data: seq<byte>)
    requires cfg.Valid() && ServerOk(cfg, p) && p.pc.SWaitRecv? && data == Frame(cfg.clientAddr)
    ensures var q := ServerStep(cfg, p, Progress(RecvDone(true, data)));
            && ServerOk(cfg, q) && Forward(Server, p, q) && SenderStill(Server, p, q)
                 && (q.pc.SAllocPeer? || q.pc.Killed?)
  {
    Locs();
    FrameRoundTrip(cfg.clientAddr, |cfg.clientAddr|);
    hide Loc, CommonStep, Frame;
  }

  lemma ServerProbed(cfg: Config, p: Proc, len: nat)
    requires cfg.Valid() && ServerOk(cfg, p) && p.pc.SProbe?
    ensures var q := ServerStep(cfg, p, Probed(len));
            && ServerOk(cfg, q) && Forward(Server, p, q) && SenderStill(Server, p, q)
            && q.pc.SAllocIn? && q.seen == len
  {
    Locs();
    hide Loc, CommonStep;
  }

  lemma ServerExchange(cfg: Config, p: Proc, n: int)
    requires cfg.Valid() && ServerOk(cfg, p)
    requires (p.pc.SSendLen? && -1 <= n <= HEADER) || (p.pc.SSendAddr? && -1 <= n <= |cfg.serverAddr|)
    ensures var q := ServerStep(cfg, p, Sent(n));
            && ServerOk(cfg, q) && q.barrier == p.barrier && q.roleRet == p.roleRet
            && (if p.pc.SSendLen? && n == HEADER then q.pc.SSendAddr?
                else if p.pc.SSendAddr? && n == |cfg.serverAddr| then q.pc.SProbe?
                else q.pc.ReleaseAddr?)
  {
    Locs();
    ToInt32Identity(n);
    ToInt32Identity(HEADER);
    ToInt32Identity(|cfg.serverAddr|);
    hide Loc, CommonStep;
  }

  // -------------------------------------------------------------------------------------------
  // Closing, barrier and teardown, both roles
  // -------------------------------------------------------------------------------------------

  predicate InCommon(pc: Pc) {
    || pc.PostClose? || pc.WaitClose? || pc.BarrierSend? || pc.BarrierPoll? || pc.BarrierRecv?
    || pc.CloseSock? || pc.ReleaseAddr? || pc.DestroyWorker? || pc.CleanupCtx? || pc.Done? || pc.Killed?
  }

  lemma CommonIsLocal(cfg: Config, r: Role, p: Proc, o: Obs)
    requires InCommon(p.pc)
    ensures LocalStep(cfg, r, p, o) == CommonStep(cfg, r, p, o)
  {
    hide CommonStep;
  }

  lemma CloseCall(cfg: Config, r: Role, p: Proc, o: Obs)
    requires cfg.Valid() && ProcOk(cfg, r, p)
    requires (p.pc.PostClose? && o.Post?) || (p.pc.WaitClose? && o.Progress? && o.seen.OpDone?)
    ensures var q := CommonStep(cfg, r, p, o); ProcOk(cfg, r, q) && QuietMove(r, p, q)
  {
    hide ClientOk, ServerOk, CommonStep, QuietMove;
    if r.Client? { CloseClient(cfg, p, o); } else { CloseServer(cfg, p, o); }
  }

  lemma CloseClient(cfg: Config, p: Proc, o: Obs)
    requires ClientOk(cfg, p)
    requires (p.pc.PostClose? && o.Post?) || (p.pc.WaitClose? && o.Progress? && o.seen.OpDone?)
    ensures var q := CommonStep(cfg, Client, p, o); ClientOk(cfg, q) && QuietMove(Client, p, q)
  {
    Locs();
    hide Loc, Printf, ServerPayload, Frame, Zeros, CopyPayload, Bytes, Value, FirstNul;
  }

  lemma CloseServer(cfg: Config, p: Proc, o: Obs)
    requires ServerOk(cfg, p)
    requires (p.pc.PostClose? && o.Post?) || (p.pc.WaitClose? && o.Progress? && o.seen.OpDone?)
    ensures var q := CommonStep(cfg, Server, p, o); ServerOk(cfg, q) && QuietMove(Server, p, q)
  {
    Locs();
    hide Loc;
  }

  lemma ReleaseCall(cfg: Config, r: Role, p: Proc)
    requires cfg.Valid() && ProcOk(cfg, r, p)
    requires p.pc.CloseSock? || p.pc.ReleaseAddr?
    ensures var q := CommonStep(cfg, r, p, Called); ProcOk(cfg, r, q) && QuietMove(r, p, q)
  {
    hide ClientOk, ServerOk, CommonStep, QuietMove;
    if r.Client? { ReleaseClient(cfg, p); } else { ReleaseServer(cfg, p); }
  }

  lemma ReleaseClient(cfg: Config, p: Proc)
    requires ClientOk(cfg, p) && (p.pc.CloseSock? || p.pc.ReleaseAddr?)
    ensures var q := CommonStep(cfg, Client, p, Called); ClientOk(cfg, q) && QuietMove(Client, p, q)
  {
    Locs();
    hide Loc, Printf, ServerPayload, Frame;
  }

  lemma ReleaseServer(cfg: Config, p: Proc)
    requires ServerOk(cfg, p) && (p.pc.CloseSock? || p.pc.ReleaseAddr?)
    ensures var q := CommonStep(cfg, Server, p, Called); ServerOk(cfg, q) && QuietMove(Server, p, q)
  {
    Locs();
    hide Loc, Printf, ServerPayload, Frame;
  }

  lemma DestroyCall(cfg: Config, r: Role, p: Proc)
    requires cfg.Valid() && ProcOk(cfg, r, p)
    requires p.pc.DestroyWorker? || p.pc.CleanupCtx?
    ensures var q := CommonStep(cfg, r, p, Called); ProcOk(cfg, r, q) && QuietMove(r, p, q)
  {
    hide ClientOk, ServerOk, CommonStep, QuietMove;
    if r.Client? { DestroyClient(cfg, p); } else { DestroyServer(cfg, p); }
  }

  lemma DestroyClient(cfg: Config, p: Proc)
    requires ClientOk(cfg, p) && (p.pc.DestroyWorker? || p.pc.CleanupCtx?)
    ensures var q := CommonStep(cfg, Client, p, Called); ClientOk(cfg, q) && QuietMove(Client, p, q)
  {
    Locs();
    hide Loc;
  }

  lemma DestroyServer(cfg: Config, p: Proc)
    requires ServerOk(cfg, p) && (p.pc.DestroyWorker? || p.pc.CleanupCtx?)
    ensures var q := CommonStep(cfg, Server, p, Called); ServerOk(cfg, q) && QuietMove(Server, p, q)
  {
    Locs();
    hide Loc;
  }

  lemma FlushCall(cfg: Config, p: Proc, o: Obs)
    requires cfg.Valid() && ServerOk(cfg, p)
    requires (p.pc.SPostFlush? && o.Post?) || (p.pc.SWaitFlush? && o.Progress? && o.seen.OpDone?)
    ensures var q := ServerStep(cfg, p, o); ServerOk(cfg, q) && QuietMove(Server, p, q)
  {
    Locs();
    hide Loc, CommonStep;
  }

  /** What the send of the token leads to. */
  predicate TokenPosted(p: Proc, n: int, q: Proc) {
    && q.roleRet == p.roleRet
    && (if n < 0 then q.pc.CloseSock? && q.barrier == Some(n) else q.pc.BarrierPoll? && q.barrier == p.barrier)
  }

  lemma BarrierSendCall(cfg: Config, r: Role, p: Proc, n: int)
    requires cfg.Valid() && ProcOk(cfg, r, p) && p.pc.BarrierSend?
    ensures var q := CommonStep(cfg, r, p, Sent(n)); ProcOk(cfg, r, q) && TokenPosted(p, n, q)
  {
    hide ClientOk, ServerOk;
    if r.Client? { BarrierSendClient(cfg, p, n); } else { BarrierSendServer(cfg, p, n); }
  }

  lemma BarrierSendClient(cfg: Config, p: Proc, n: int)
    requires ClientOk(cfg, p) && p.pc.BarrierSend?
    ensures ClientOk(cfg, CommonStep(cfg, Client, p, Sent(n)))
  {
    Locs();
    hide Loc;
  }

  lemma BarrierSendServer(cfg: Config, p: Proc, n: int)
    requires ServerOk(cfg, p) && p.pc.BarrierSend?
    ensures ServerOk(cfg, CommonStep(cfg, Server, p, Sent(n)))
  {
    Locs();
    hide Loc;
  }

  lemma BarrierPollCall(cfg: Config, r: Role, p: Proc, seen: Seen)
    requires cfg.Valid() && ProcOk(cfg, r, p) && p.pc.BarrierPoll?
    ensures var q := CommonStep(cfg, r, p, Readable(seen));
            ProcOk(cfg, r, q) && q.pc.BarrierRecv? && QuietMove(r, p, q)
  {
    Locs();
    hide Loc, Printf, ServerPayload, Frame, Zeros, CopyPayload, Bytes, Value, FirstNul;
  }

  lemma BarrierRecvCall(cfg: Config, r: Role, p: Proc, o: Obs)
    requires cfg.Valid() && ProcOk(cfg, r, p) && p.pc.BarrierRecv? && o.Recvd?
    ensures var q := CommonStep(cfg, r, p, o);
            && ProcOk(cfg, r, q) && q.roleRet == p.roleRet && q.pc.CloseSock? && q.barrier.Some?
            && (q.barrier == Some(0) ==> !o.failed && |o.bytes| == |TOKEN|)
  {
    Locs();
    hide Loc;
  }

  // -------------------------------------------------------------------------------------------
  // Preservation by the joint steps
  // -------------------------------------------------------------------------------------------

  lemma ArriveInv(cfg: Config, s: State, r: Role)
    requires cfg.Valid() && Inv(cfg, s)
    ensures Inv(cfg, Background(s, r, Arrive))
  {
    Locs();
    hide Loc, ProcOk, ClientOk, ServerOk;
  }

  /** A rendezvous read always finds both buffers in place, and reads the frame. */
  lemma MoveInv(cfg: Config, s: State, from: Role, kind: Kind)
    requires cfg.Valid() && Inv(cfg, s) && CanMove(s, from, kind)
    ensures s.P(from).heap.outMsg == Some(Block(if from.Client? then HostMalloc else MemType, FrameOf(cfg, from)))
    ensures s.P(from.Peer()).heap.inMsg.Some?
    ensures Inv(cfg, Move(s, from))
  {
    hide Inv, OutOk, StreamsOk, ClientOk, ServerOk, Loc, FrameOf, Waiting;
    InvBreaks(cfg, s);
    ChannelMoves(cfg, s, from);
    Locs();
    MoveBuffers(cfg, s, from);
    ChannelMoved(cfg, s, from);
    var t := s.Out(from)[0].(data := Some(FrameOf(cfg, from)));
    assert s.Out(from)[0 := t] == [t];
    InvAside(cfg, s, Move(s, from), from);
  }

  /** An unread transfer that may move belongs to a send still waited for and a receive still pending. */
  lemma ChannelMoves(cfg: Config, s: State, from: Role)
    requires OutOk(cfg, s, from)
    requires var ts := s.Out(from); var k := Find(ts, Matched); k < |ts| && ts[k].data.None? && !ts[k].aborted
    ensures SendPending(from, Loc(s.P(from).pc)) && Receiving(from.Peer(), Loc(s.P(from.Peer()).pc))
    ensures |s.Out(from)| == 1 && Find(s.Out(from), Matched) == 0 && |FrameOf(cfg, from)| > 0
  {
    Locs();
    hide Loc, FrameOf;
  }

  lemma MoveBuffers(cfg: Config, s: State, from: Role)
    requires ClientOk(cfg, s.c) && ServerOk(cfg, s.s)
    requires SendPending(from, Loc(s.P(from).pc)) && Receiving(from.Peer(), Loc(s.P(from.Peer()).pc))
    ensures s.P(from).heap.outMsg == Some(Block(if from.Client? then HostMalloc else MemType, FrameOf(cfg, from)))
    ensures s.P(from.Peer()).heap.inMsg.Some?
  {
    Locs();
    hide Loc, Printf, ServerPayload, Frame, Zeros, CopyPayload, Bytes, Value, FirstNul;
  }

  lemma ChannelMoved(cfg: Config, s: State, from: Role)
    requires OutOk(cfg, s, from) && |s.Out(from)| == 1 && SendPending(from, Loc(s.P(from).pc))
    ensures OutOk(cfg, s.WithOut(from, [s.Out(from)[0].(data := Some(FrameOf(cfg, from)))]), from)
  {
    Locs();
    hide Loc, FrameOf;
  }

  lemma BackgroundInv(cfg: Config, s: State, r: Role, e: Event)
    requires cfg.Valid() && Inv(cfg, s)
    ensures Inv(cfg, Background(s, r, e))
  {
    if e.Arrive? {
      ArriveInv(cfg, s, r);
    } else if e.MoveIn? && CanMove(s, r.Peer(), RndvGet) {
      MoveInv(cfg, s, r.Peer(), RndvGet);
    } else if e.MoveOut? && CanMove(s, r, RndvPut) {
      MoveInv(cfg, s, r, RndvPut);
    }
    hide Inv, Move, CanMove;
  }

  predicate InWaitLoop(pc: Pc) {
    || pc.CWaitSend? || pc.CProbe? || pc.CWaitRecv? || pc.SProbe? || pc.SWaitRecv? || pc.SWaitSend?
    || pc.SSpinFailed? || pc.SSpinKeepalive? || pc.SWaitFlush? || pc.WaitClose?
  }

  lemma PassInv(cfg: Config, s: State, r: Role, e: Event)
    requires cfg.Valid() && Inv(cfg, s) && InWaitLoop(s.P(r).pc)
    ensures Inv(cfg, Pass(cfg, s, r, e))
  {
    if e.HandlerRuns? && s.P(r).ep.Open? && s.P(r).epOk {
      HandlerOpen(cfg, s, r);
      if r.Client? { ClientHandler(cfg, s.c); } else { ServerHandler(cfg, s.s); }
      QuietInv(cfg, s, r, LocalStep(cfg, r, s.P(r), Progress(PeerDown)));
    } else {
      BackgroundInv(cfg, s, r, e);
    }
    hide Inv, Background, ClientStep, ServerStep, QuietMove, ClientOk, ServerOk;
  }

  lemma HandlerOpen(cfg: Config, s: State, r: Role)
    requires Inv(cfg, s) && InWaitLoop(s.P(r).pc) && s.P(r).ep.Open?
    ensures r.Client? ==> s.c.pc.CWaitSend? || s.c.pc.CProbe? || s.c.pc.CWaitRecv?
    ensures r.Server? ==> s.s.pc.SWaitSend? || s.s.pc.SSpinFailed? || s.s.pc.SSpinKeepalive? || s.s.pc.SWaitFlush?
  {
    hide OutOk, StreamsOk;
  }

  lemma AllocInv(cfg: Config, s: State, r: Role, granted: bool)
    requires cfg.Valid() && Inv(cfg, s)
    requires s.P(r).pc in {CAllocPeer, CAllocOut, CAllocIn, CAllocStr, SAllocIn, SAllocPeer, SAllocOut, SGenAlloc}
    ensures Inv(cfg, Local(cfg, s, r, Alloc(granted)))
  {
    hide Inv, ClientStep, ServerStep, QuietMove, ClientOk, ServerOk, OutOk, StreamsOk;
    InvBreaks(cfg, s);
    AllocRole(cfg, s, r);
    if r.Client? { ClientAlloc(cfg, s.c, granted); } else { ServerAlloc(cfg, s.s, granted); }
    QuietInv(cfg, s, r, LocalStep(cfg, r, s.P(r), Alloc(granted)));
  }

  lemma AllocRole(cfg: Config, s: State, r: Role)
    requires Inv(cfg, s)
    ensures s.P(r).pc.CAllocPeer? || s.P(r).pc.CAllocOut? || s.P(r).pc.CAllocIn? || s.P(r).pc.CAllocStr? ==> r.Client?
    ensures s.P(r).pc.SAllocIn? || s.P(r).pc.SAllocPeer? || s.P(r).pc.SAllocOut? || s.P(r).pc.SGenAlloc? ==> r.Server?
  {
    hide OutOk, StreamsOk, Loc;
  }

  lemma CreateInv(cfg: Config, s: State, r: Role, made: bool)
    requires cfg.Valid() && Inv(cfg, s) && (s.P(r).pc.CCreateEp? || s.P(r).pc.SCreateEp?)
    ensures Inv(cfg, Local(cfg, s, r, Created(made)))
  {
    hide Inv, ClientStep, ServerStep, QuietMove, ClientOk, ServerOk, OutOk, StreamsOk;
    InvBreaks(cfg, s);
    CreateRole(cfg, s, r);
    if r.Client? { ClientCreate(cfg, s.c, made); } else { ServerCreate(cfg, s.s, made); }
    QuietInv(cfg, s, r, LocalStep(cfg, r, s.P(r), Created(made)));
  }

  lemma CreateRole(cfg: Config, s: State, r: Role)
    requires Inv(cfg, s)
    ensures s.P(r).pc.CCreateEp? ==> r.Client?
    ensures s.P(r).pc.SCreateEp? ==> r.Server?
  {
    hide OutOk, StreamsOk, Loc;
  }

  lemma CallInv(cfg: Config, s: State, r: Role)
    requires cfg.Valid() && Inv(cfg, s)
    requires s.P(r).pc in {CloseSock, ReleaseAddr, DestroyWorker, CleanupCtx}
    ensures Inv(cfg, Local(cfg, s, r, Called))
  {
    var p := s.P(r);
    if p.pc.CloseSock? || p.pc.ReleaseAddr? { ReleaseCall(cfg, r, p); } else { DestroyCall(cfg, r, p); }
    CommonIsLocal(cfg, r, p, Called);
    QuietInv(cfg, s, r, CommonStep(cfg, r, p, Called));
    hide Inv, LocalStep, CommonStep, QuietMove;
  }

  lemma OpInv(cfg: Config, s: State, r: Role, o: Obs)
    requires cfg.Valid() && Inv(cfg, s)
    requires (s.P(r).pc in {SPostFlush, PostClose} && o.Post?)
          || (s.P(r).pc in {SWaitFlush, WaitClose} && o.Progress? && o.seen.OpDone?)
    ensures Inv(cfg, Local(cfg, s, r, o))
  {
    hide OutOk, StreamsOk, ClientStep, ServerStep, CommonStep, QuietMove;
    var p := s.P(r);
    if p.pc.PostClose? || p.pc.WaitClose? {
      CommonIsLocal(cfg, r, p, o);
      CloseCall(cfg, r, p, o);
    } else {
      FlushCall(cfg, p, o);
    }
    QuietInv(cfg, s, r, LocalStep(cfg, r, p, o));
  }

  // The channel after the sender's or the receiver's move, from the facts about that move alone.

  lemma ChannelPosted(cfg: Config, s: State, r: Role, t: Transfer, q: Proc)
    requires OutOk(cfg, s, r) && Loc(s.P(r).pc) == PostAt(r) < Loc(q.pc)
    requires FrameOf(cfg, r) != []
    requires t.tag == TAG && t.len == |FrameOf(cfg, r)| && t.stage.OnWire? && !t.aborted
    requires t.data == Some(FrameOf(cfg, r)) || (t.data.None? && !t.kind.Eager? && SendPending(r, Loc(q.pc)))
    ensures OutOk(cfg, s.WithOut(r, s.Out(r) + [t]).WithP(r, q), r)
  {
    Locs();
    hide Loc;
  }

  lemma ChannelRefused(cfg: Config, s: State, r: Role, q: Proc)
    requires OutOk(cfg, s, r) && Loc(s.P(r).pc) == PostAt(r) && Loc(q.pc) > PostAt(r) + 1
    ensures OutOk(cfg, s.WithP(r, q), r)
  {
    Locs();
    hide Loc;
  }

  lemma ChannelSent(cfg: Config, s: State, r: Role, abort: bool, q: Proc)
    requires OutOk(cfg, s, r) && SendPending(r, Loc(s.P(r).pc)) && Loc(q.pc) > PostAt(r) + 1
    requires abort || SendCanComplete(s, r)
    ensures OutOk(cfg, (if abort then s.WithOut(r, AbortLast(s.Out(r))) else s).WithP(r, q), r)
  {
    Locs();
    hide Loc;
  }

  lemma ChannelProbed(cfg: Config, s: State, r: Role, q: Proc)
    requires OutOk(cfg, s, r.Peer()) && Probeable(s.Out(r.Peer())) && Loc(s.P(r).pc) == ProbeAt(r)
    requires var inc := s.Out(r.Peer());
             (Loc(q.pc) == ProbeAt(r) + 1 && q.seen == inc[Find(inc, Unexpected)].len) || Loc(q.pc) >= POST_CLOSE
    ensures var inc := s.Out(r.Peer());
            OutOk(cfg, s.WithOut(r.Peer(), SetStage(inc, Find(inc, Unexpected), Claimed)).WithP(r, q), r.Peer())
  {
    Locs();
    hide Loc;
  }

  lemma ChannelMatched(cfg: Config, s: State, r: Role, q: Proc)
    requires OutOk(cfg, s, r.Peer()) && Loc(s.P(r).pc) == ProbeAt(r) + 2
    requires Loc(q.pc) == ProbeAt(r) + 3 && q.seen == s.P(r).seen
    ensures var inc := s.Out(r.Peer());
            && Find(inc, Claimed) < |inc|
            && OutOk(cfg, s.WithOut(r.Peer(), SetStage(inc, Find(inc, Claimed), Matched)).WithP(r, q), r.Peer())
  {
    Locs();
    hide Loc;
  }

  lemma ChannelUnmatched(cfg: Config, s: State, r: Role, q: Proc)
    requires OutOk(cfg, s, r.Peer()) && Loc(s.P(r).pc) == ProbeAt(r) + 2 && Loc(q.pc) >= POST_CLOSE
    ensures OutOk(cfg, s.WithP(r, q), r.Peer())
  {
    Locs();
    hide Loc;
  }

  lemma ChannelReceived(cfg: Config, s: State, r: Role, abort: bool, q: Proc)
    requires OutOk(cfg, s, r.Peer()) && Loc(s.P(r).pc) == ProbeAt(r) + 3 < Loc(q.pc)
    requires var inc := s.Out(r.Peer());
             && Find(inc, Matched) < |inc|
             && (abort ==> Loc(q.pc) >= POST_CLOSE)
             && (!abort ==> inc[Find(inc, Matched)].data.Some?)
    ensures var inc := s.Out(r.Peer()); var k := Find(inc, Matched);
            var t := inc[k].(stage := Received, aborted := inc[k].aborted || abort);
            OutOk(cfg, s.WithOut(r.Peer(), inc[k := t]).WithP(r, q), r.Peer())
  {
    Locs();
    hide Loc;
  }

  /** While a receive is posted, its message is in the channel, with the length and bytes expected. */
  lemma ReceivingTransfer(cfg: Config, s: State, r: Role)
    requires OutOk(cfg, s, r.Peer()) && Loc(s.P(r).pc) == ProbeAt(r) + 3
    ensures var inc := s.Out(r.Peer()); var k := Find(inc, Matched);
            && k < |inc| && FrameOf(cfg, r.Peer()) != [] && s.P(r).seen == |FrameOf(cfg, r.Peer())|
            && (inc[k].data.Some? ==> inc[k].data.value == FrameOf(cfg, r.Peer()))
  {
    Locs();
    hide Loc;
  }

  lemma PostSendInv(cfg: Config, s: State, r: Role, ch: Choice)
    requires cfg.Valid() && Inv(cfg, s) && (s.P(r).pc.CPostSend? || s.P(r).pc.SPostSend?)
    ensures Inv(cfg, PostSendStep(cfg, s, r, ch))
  {
    hide Inv, Loc, OutOk, StreamsOk, LocalStep, Forward, ReceiverStill, ClientOk, ServerOk, FrameOf;
    InvBreaks(cfg, s);
    OutBuffer(cfg, s, r);
    Locs();
    if ch.Null? || ch.Fail? || ch.Request? {
      var t := PostSendStep(cfg, s, r, ch);
      var o := if ch.Null? then Post(Now) else if ch.Fail? then Post(Refused) else Post(Later);
      var q := LocalStep(cfg, r, s.P(r), o);
      SendOf(cfg, s, r, o);
      StreamsStill(cfg, s, r, q);
      InStill(cfg, s, r, q);
      if ch.Fail? { ChannelRefused(cfg, s, r, q); } else { ChannelPosted(cfg, s, r, t.Out(r)[|s.Out(r)|], q); }
      InvAside(cfg, s.WithP(r, q), t, r);
    }
  }

  lemma OutBuffer(cfg: Config, s: State, r: Role)
    requires Inv(cfg, s) && (s.P(r).pc.CPostSend? || s.P(r).pc.SPostSend?)
    ensures s.P(r).heap.outMsg.Some? && s.P(r).heap.outMsg.value.data == FrameOf(cfg, r) != []
    ensures r.Client? <==> s.P(r).pc.CPostSend?
  {
    hide OutOk, StreamsOk;
  }

  lemma WaitSendInv(cfg: Config, s: State, r: Role, e: Event)
    requires cfg.Valid() && Inv(cfg, s) && (s.P(r).pc.CWaitSend? || s.P(r).pc.SWaitSend?)
    ensures Inv(cfg, WaitSendStep(cfg, s, r, e))
  {
    hide Inv, Pass, SendCanComplete, Local;
    if e.Break? || e.Complete? {
      SendEnds(cfg, s, r, e);
    } else {
      PassInv(cfg, s, r, e);
    }
  }

  lemma SendEnds(cfg: Config, s: State, r: Role, e: Event)
    requires cfg.Valid() && Inv(cfg, s) && (s.P(r).pc.CWaitSend? || s.P(r).pc.SWaitSend?) && (e.Break? || e.Complete?)
    ensures Inv(cfg, WaitSendStep(cfg, s, r, e))
  {
    hide Inv, Loc, OutOk, StreamsOk, LocalStep, Forward, ReceiverStill, ClientOk, ServerOk, AbortLast, SendCanComplete;
    if e.Break? || SendCanComplete(s, r) {
      InvBreaks(cfg, s);
      RoleOf(cfg, s, r);
      Locs();
      var o := Progress(SendDone(e.Complete?));
      var q := LocalStep(cfg, r, s.P(r), o);
      SendOf(cfg, s, r, o);
      StreamsStill(cfg, s, r, q);
      InStill(cfg, s, r, q);
      ChannelSent(cfg, s, r, e.Break?, q);
      InvAside(cfg, s.WithP(r, q), WaitSendStep(cfg, s, r, e), r);
    }
  }

  /** What the send lemmas say, whichever role r is. */
  lemma SendOf(cfg: Config, s: State, r: Role, o: Obs)
    requires cfg.Valid() && ClientOk(cfg, s.c) && ServerOk(cfg, s.s)
    requires if r.Client? then (s.c.pc.CPostSend? && o.Post?) || (s.c.pc.CWaitSend? && o.Progress? && o.seen.SendDone?)
             else (s.s.pc.SPostSend? && o.Post?) || (s.s.pc.SWaitSend? && o.Progress? && o.seen.SendDone?)
    ensures var p, q := s.P(r), LocalStep(cfg, r, s.P(r), o);
            && ProcOk(cfg, r, q) && Forward(r, p, q) && ReceiverStill(r, p, q) && Loc(p.pc) <= Loc(q.pc)
            && (SendPending(r, Loc(q.pc)) <==> o == Post(Later)) && Loc(q.pc) > PostAt(r)
  {
    hide Loc, ClientStep, ServerStep, ReceiverStill, ClientOk, ServerOk;
    if r.Client? { ClientSend(cfg, s.c, o); } else { ServerSend(cfg, s.s, o); }
  }

  /** A location of one role is reached by that role only. */
  lemma RoleOf(cfg: Config, s: State, r: Role)
    requires Inv(cfg, s)
    ensures s.P(r).pc in {CWaitSend, CProbe, CPostRecv, CWaitRecv, CRecvLen, CRecvAddr} ==> r.Client?
    ensures s.P(r).pc in {SWaitSend, SProbe, SPostRecv, SWaitRecv, SSendLen, SSendAddr, SPreProgress} ==> r.Server?
  {
    hide OutOk, StreamsOk;
  }

  lemma ProbeHitInv(cfg: Config, s: State, r: Role)
    requires cfg.Valid() && Inv(cfg, s) && (s.P(r).pc.CProbe? || s.P(r).pc.SProbe?)
    requires Probeable(s.Out(r.Peer()))
    ensures Inv(cfg, ProbeHit(cfg, s, r))
  {
    RoleOf(cfg, s, r);
    var inc := s.Out(r.Peer());
    var o := Probed(inc[Find(inc, Unexpected)].len);
    var q := LocalStep(cfg, r, s.P(r), o);
    if r.Client? { ClientProbed(cfg, s.c, o.length); } else { ServerProbed(cfg, s.s, o.length); }
    Locs();
    StreamsStill(cfg, s, r, q);
    OutStill(cfg, s, r, q);
    ChannelProbed(cfg, s, r, q);
    hide Loc, OutOk, StreamsOk, ClientStep, ServerStep, Forward, SenderStill, ClientOk, ServerOk, Probeable;
  }

  lemma PostRecvInv(cfg: Config, s: State, r: Role, ch: Choice)
    requires cfg.Valid() && Inv(cfg, s) && (s.P(r).pc.CPostRecv? || s.P(r).pc.SPostRecv?)
    ensures Inv(cfg, PostRecvStep(cfg, s, r, ch))
  {
    hide Inv, Loc, OutOk, StreamsOk, LocalStep, Forward, SenderStill, ClientOk, ServerOk, FrameOf;
    if ch.Ok? || ch.Fail? {
      InvBreaks(cfg, s);
      RoleOf(cfg, s, r);
      Locs();
      var o := if ch.Ok? then Post(Later) else Post(Refused);
      var q := LocalStep(cfg, r, s.P(r), o);
      ReceiveOf(cfg, s, r, o);
      StreamsStill(cfg, s, r, q);
      OutStill(cfg, s, r, q);
      if ch.Ok? { ChannelMatched(cfg, s, r, q); } else { ChannelUnmatched(cfg, s, r, q); }
      InvAside(cfg, s.WithP(r, q), PostRecvStep(cfg, s, r, ch), r.Peer());
    }
  }

  lemma WaitRecvInv(cfg: Config, s: State, r: Role, e: Event)
    requires cfg.Valid() && Inv(cfg, s) && (s.P(r).pc.CWaitRecv? || s.P(r).pc.SWaitRecv?)
    ensures Inv(cfg, WaitRecvStep(cfg, s, r, e))
  {
    hide Inv, Pass, Local;
    if e.Break? || e.Complete? {
      ReceiveEnds(cfg, s, r, e);
    } else {
      PassInv(cfg, s, r, e);
    }
  }

  lemma ReceiveEnds(cfg: Config, s: State, r: Role, e: Event)
    requires cfg.Valid() && Inv(cfg, s) && (s.P(r).pc.CWaitRecv? || s.P(r).pc.SWaitRecv?) && (e.Break? || e.Complete?)
    ensures Inv(cfg, WaitRecvStep(cfg, s, r, e))
  {
    hide Inv, Loc, OutOk, StreamsOk, LocalStep, Forward, SenderStill, ClientOk, ServerOk, FrameOf;
    InvBreaks(cfg, s);
    RoleOf(cfg, s, r);
    InBuffer(cfg, s, r);
    Locs();
    var inc := s.Out(r.Peer());
    var k := Find(inc, Matched);
    if e.Break? || (k < |inc| && inc[k].data.Some?) {
      ReceivingTransfer(cfg, s, r);
      var o := if e.Complete? then Progress(RecvDone(true, inc[k].data.value)) else Progress(RecvDone(false, []));
      var q := LocalStep(cfg, r, s.P(r), o);
      ReceiveOf(cfg, s, r, o);
      StreamsStill(cfg, s, r, q);
      OutStill(cfg, s, r, q);
      ChannelReceived(cfg, s, r, e.Break?, q);
      InvAside(cfg, s.WithP(r, q), WaitRecvStep(cfg, s, r, e), r.Peer());
    }
  }

  /** What the receive lemmas say, whichever role r is. */
  lemma ReceiveOf(cfg: Config, s: State, r: Role, o: Obs)
    requires cfg.Valid() && ClientOk(cfg, s.c) && ServerOk(cfg, s.s)
    requires if r.Client? then s.c.pc.CPostRecv? || s.c.pc.CWaitRecv? else s.s.pc.SPostRecv? || s.s.pc.SWaitRecv?
    requires if s.P(r).pc in {CPostRecv, SPostRecv} then o in {Post(Later), Post(Refused)}
             else o.Progress? && o.seen.RecvDone?
    requires o.Progress? && o.seen.received ==>
               o.seen.data == FrameOf(cfg, r.Peer()) && s.P(r).seen == |FrameOf(cfg, r.Peer())| > 0
    ensures var p, q := s.P(r), LocalStep(cfg, r, s.P(r), o);
            && ProcOk(cfg, r, q) && Forward(r, p, q) && SenderStill(r, p, q) && Loc(p.pc) <= Loc(q.pc)
            && (if o == Post(Later) then Loc(q.pc) == ProbeAt(r) + 3 && q.seen == p.seen
                else Loc(q.pc) > ProbeAt(r) + 3 && ((o.Progress? && o.seen.received) || Loc(q.pc) >= POST_CLOSE))
  {
    Locs();
    hide Loc, ClientStep, ServerStep, SenderStill, ClientOk, ServerOk;
    if r.Client? { ClientReceive(cfg, s.c, o); } else { ServerReceive(cfg, s.s, o); }
  }

  lemma InBuffer(cfg: Config, s: State, r: Role)
    requires Inv(cfg, s) && (s.P(r).pc.CWaitRecv? || s.P(r).pc.SWaitRecv?)
    ensures s.P(r).heap.inMsg.Some?
  {
    hide OutOk, StreamsOk;
  }

  lemma DeliverInv(cfg: Config, s: State, from: Role, n: nat)
    requires cfg.Valid() && Inv(cfg, s)
    ensures Inv(cfg, DeliverStep(s, from, n))
  {
    Locs();
    hide Loc, ProcOk, ClientOk, ServerOk, ChannelOk;
  }

  /** Leaving or advancing in the address exchange moves no message. */
  lemma ExchangeChannels(cfg: Config, s: State, r: Role, q: Proc)
    requires Inv(cfg, s)
    requires s.P(r).pc in {CRecvLen, CRecvAddr, SSendLen, SSendAddr}
    requires Loc(s.P(r).pc) < Loc(q.pc) <= RoleAt(r) || q.pc.ReleaseAddr?
    ensures OutOk(cfg, s.WithP(r, q), r) && OutOk(cfg, s.WithP(r, q), r.Peer())
  {
    Locs();
    hide Loc, ProcOk, ClientOk, ServerOk, StreamsOk;
  }

  /** What the client's checked receives return is what the server's location says was written. */
  lemma ExchangeBytes(cfg: Config, s: State, n: nat)
    requires Inv(cfg, s) && (s.c.pc.CRecvLen? || s.c.pc.CRecvAddr?) && n <= s.oobSC.Avail()
    ensures var bytes := s.oobSC.sent[s.oobSC.taken..s.oobSC.taken + n];
            && (s.c.pc.CRecvLen? && n == HEADER ==> bytes == Bytes(|cfg.serverAddr|, HEADER))
            && (s.c.pc.CRecvAddr? && n == |cfg.serverAddr| ==> bytes == cfg.serverAddr)
  {
    Locs();
    hide Loc, ProcOk, ClientOk, ServerOk, OutOk;
    var st := s.oobSC;
    var all := Preamble(cfg) + TOKEN;
    assert st.sent[st.taken..st.taken + n] == all[st.taken..st.taken + n];
    assert all[..HEADER] == Bytes(|cfg.serverAddr|, HEADER);
    assert all[HEADER..|Preamble(cfg)|] == cfg.serverAddr;
  }

  lemma ClientRecvInv(cfg: Config, s: State, ch: Choice)
    requires cfg.Valid() && Inv(cfg, s)
    requires s.c.pc.CRecvLen? || s.c.pc.CRecvAddr?
    ensures Inv(cfg, OobRecvStep(cfg, s, Client, if s.c.pc.CRecvLen? then HEADER else s.c.seen, ch))
  {
    hide Inv, TakeBytes, Local;
    var need := if s.c.pc.CRecvLen? then HEADER else s.c.seen;
    ClientTakes(cfg, s, if ch.Short? && ch.n < need then ch.n else need);
    ClientRecvFails(cfg, s);
  }

  lemma ClientRecvFails(cfg: Config, s: State)
    requires cfg.Valid() && Inv(cfg, s)
    requires s.c.pc.CRecvLen? || s.c.pc.CRecvAddr?
    ensures Inv(cfg, Local(cfg, s, Client, Recvd([], true)))
  {
    ClientRecvPart(cfg, s, 0, Recvd([], true));
    hide Inv, LocalStep;
  }

  lemma ClientTakes(cfg: Config, s: State, n: nat)
    requires cfg.Valid() && Inv(cfg, s)
    requires s.c.pc.CRecvLen? || s.c.pc.CRecvAddr?
    requires n <= if s.c.pc.CRecvLen? then HEADER else s.c.seen
    ensures Inv(cfg, TakeBytes(cfg, s, Client, n))
  {
    hide Inv, LocalStep;
    var st := s.oobSC;
    if st.Valid() && n <= st.Avail() {
      ClientRecvPart(cfg, s, n, Recvd(st.sent[st.taken..st.taken + n], false));
    }
  }

  lemma ClientRecvPart(cfg: Config, s: State, n: nat, o: Obs)
    requires cfg.Valid() && Inv(cfg, s)
    requires s.c.pc.CRecvLen? || s.c.pc.CRecvAddr?
    requires n <= if s.c.pc.CRecvLen? then HEADER else s.c.seen
    requires n <= s.oobSC.Avail() && s.oobSC.Valid()
    requires o == Recvd(s.oobSC.sent[s.oobSC.taken..s.oobSC.taken + n], false) || (o == Recvd([], true) && n == 0)
    ensures Inv(cfg, s.(oobSC := s.oobSC.(taken := s.oobSC.taken + n), c := LocalStep(cfg, Client, s.c, o)))
  {
    ClientSeen(cfg, s);
    ExchangeBytes(cfg, s, n);
    ClientExchange(cfg, s.c, o);
    var q := ClientStep(cfg, s.c, o);
    Locs();
    ExchangeChannels(cfg, s, Client, q);
    ExchangeTaken(cfg, s, n, q);
    hide Loc, ClientStep, ServerStep, ChannelOk, StreamsOk, ClientOk, ServerOk, Bytes;
  }

  lemma StreamsValid(cfg: Config, s: State)
    requires Inv(cfg, s)
    ensures s.oobSC.Valid() && s.oobCS.Valid()
  {
    hide OutOk, ProcOk, ClientOk, ServerOk;
  }

  lemma ClientSeen(cfg: Config, s: State)
    requires Inv(cfg, s)
    ensures s.c.pc.CRecvAddr? ==> s.c.seen == |cfg.serverAddr|
  {
    hide OutOk, StreamsOk, ServerOk;
  }

  lemma ExchangeTaken(cfg: Config, s: State, n: nat, q: Proc)
    requires StreamsOk(cfg, s) && n <= s.oobSC.Avail() && q.barrier == s.c.barrier && q.roleRet == s.c.roleRet
    requires s.c.pc.CRecvLen? || s.c.pc.CRecvAddr?
    requires q.pc.ReleaseAddr?
          || (s.c.pc.CRecvLen? && n == HEADER && q.pc.CAllocPeer?)
          || (s.c.pc.CRecvAddr? && n == |cfg.serverAddr| && q.pc.CCreateEp?)
    ensures StreamsOk(cfg, s.(oobSC := s.oobSC.(taken := s.oobSC.taken + n), c := q))
  {
    Locs();
    hide Loc;
  }

  lemma ServerSendInv(cfg: Config, s: State, ch: Choice)
    requires cfg.Valid() && Inv(cfg, s)
    requires s.s.pc.SSendLen? || s.s.pc.SSendAddr?
    ensures Inv(cfg, OobSendStep(cfg, s, Server,
                                 if s.s.pc.SSendLen? then Bytes(|cfg.serverAddr|, HEADER) else cfg.serverAddr, ch))
  {
    hide Inv, Loc, LocalStep, ChannelOk, StreamsOk, ClientOk, ServerOk, Bytes, OutOk;
    var msg := if s.s.pc.SSendLen? then Bytes(|cfg.serverAddr|, HEADER) else cfg.serverAddr;
    assert msg[..|msg|] == msg;
    if ch.Ok? || ch.Fail? || (ch.Short? && ch.n < |msg|) {
      ServerSends(cfg, s, msg, if ch.Ok? then |msg| else if ch.Fail? then -1 else ch.n);
      assert s.oobSC.sent + [] == s.oobSC.sent;
      assert s.(oobSC := s.oobSC.(sent := s.oobSC.sent + [])) == s;
    }
  }

  lemma ServerSends(cfg: Config, s: State, msg: seq<byte>, n: int)
    requires cfg.Valid() && Inv(cfg, s) && (s.s.pc.SSendLen? || s.s.pc.SSendAddr?)
    requires msg == (if s.s.pc.SSendLen? then Bytes(|cfg.serverAddr|, HEADER) else cfg.serverAddr) && -1 <= n <= |msg|
    ensures var st := s.oobSC;
            var sent := st.sent + if n < 0 then [] else msg[..n];
            Inv(cfg, Local(cfg, s.WithOob(Server, st.(sent := sent)), Server, Sent(n)))
  {
    ServerExchange(cfg, s.s, n);
    var q := ServerStep(cfg, s.s, Sent(n));
    Locs();
    ExchangeChannels(cfg, s, Server, q);
    ExchangeWritten(cfg, s, if n < 0 then [] else msg[..n], q);
    hide Loc, ClientStep, ServerStep, ChannelOk, StreamsOk, ClientOk, ServerOk, Bytes;
  }

  lemma ExchangeWritten(cfg: Config, s: State, part: seq<byte>, q: Proc)
    requires StreamsOk(cfg, s) && q.barrier == s.s.barrier && q.roleRet == s.s.roleRet
    requires s.s.pc.SSendLen? || s.s.pc.SSendAddr?
    requires part <= if s.s.pc.SSendLen? then Bytes(|cfg.serverAddr|, HEADER) else cfg.serverAddr
    requires q.pc.ReleaseAddr?
          || (s.s.pc.SSendLen? && |part| == HEADER && q.pc.SSendAddr?)
          || (s.s.pc.SSendAddr? && part == cfg.serverAddr && q.pc.SProbe?)
    ensures StreamsOk(cfg, s.(oobSC := s.oobSC.(sent := s.oobSC.sent + part), s := q))
  {
    Locs();
    hide Loc;
  }

  lemma BarrierChannels(cfg: Config, s: State, r: Role, q: Proc)
    requires Inv(cfg, s) && BARRIER_SEND <= Loc(s.P(r).pc) <= Loc(q.pc)
    ensures OutOk(cfg, s.WithP(r, q), r) && OutOk(cfg, s.WithP(r, q), r.Peer())
  {
    Locs();
    hide Loc, ProcOk, ClientOk, ServerOk, StreamsOk;
  }

  lemma BarrierSendInv(cfg: Config, s: State, r: Role, ch: Choice)
    requires cfg.Valid() && Inv(cfg, s) && s.P(r).pc.BarrierSend?
    ensures Inv(cfg, OobSendStep(cfg, s, r, TOKEN, ch))
  {
    hide Inv, LocalStep;
    assert TOKEN[..|TOKEN|] == TOKEN;
    if ch.Ok? || ch.Fail? || (ch.Short? && ch.n < |TOKEN|) {
      TokenPartInv(cfg, s, r, if ch.Ok? then |TOKEN| else if ch.Fail? then -1 else ch.n);
    }
    var st := s.Oob(r);
    assert s.WithOob(r, st.(sent := st.sent + [])) == s by { assert st.sent + [] == st.sent; }
  }

  lemma TokenPartInv(cfg: Config, s: State, r: Role, n: int)
    requires cfg.Valid() && Inv(cfg, s) && s.P(r).pc.BarrierSend? && -1 <= n <= |TOKEN|
    ensures var st := s.Oob(r);
            Inv(cfg, Local(cfg, s.WithOob(r, st.(sent := st.sent + if n < 0 then [] else TOKEN[..n])), r, Sent(n)))
  {
    CommonIsLocal(cfg, r, s.P(r), Sent(n));
    BarrierRet(cfg, s, r);
    Locs();
    hide Loc, LocalStep, CommonStep, ChannelOk, StreamsOk, ClientOk, ServerOk;
    BarrierSendCall(cfg, r, s.P(r), n);
    var q := CommonStep(cfg, r, s.P(r), Sent(n));
    BarrierChannels(cfg, s, r, q);
    TokenWritten(cfg, s, r, if n < 0 then [] else TOKEN[..n], n < 0, q);
  }

  lemma BarrierRet(cfg: Config, s: State, r: Role)
    requires Inv(cfg, s) && s.P(r).pc in {BarrierSend, BarrierPoll, BarrierRecv}
    ensures s.P(r).roleRet == Some(0) && s.P(r).barrier == None && cfg.Failure(r) == NoFailure
  {
    Locs();
    hide Loc, OutOk, StreamsOk;
  }

  lemma TokenWritten(cfg: Config, s: State, r: Role, part: seq<byte>, failed: bool, q: Proc)
    requires StreamsOk(cfg, s) && q.roleRet == s.P(r).roleRet == Some(0) && s.P(r).barrier == None
    requires s.P(r).pc.BarrierSend? && part <= TOKEN && (failed ==> part == [])
    requires if failed then q.pc.CloseSock? && q.barrier.Some? && q.barrier != Some(0)
             else q.pc.BarrierPoll? && q.barrier == None
    ensures StreamsOk(cfg, s.WithOob(r, s.Oob(r).(sent := s.Oob(r).sent + part)).WithP(r, q))
  {
    Locs();
    hide Loc;
  }

  lemma BarrierRecvInv(cfg: Config, s: State, r: Role, ch: Choice)
    requires cfg.Valid() && Inv(cfg, s) && s.P(r).pc.BarrierRecv?
    ensures Inv(cfg, OobRecvStep(cfg, s, r, |TOKEN|, ch))
  {
    hide Inv, TakeBytes, LocalStep;
    StreamsValid(cfg, s);
    BarrierTakes(cfg, s, r, if ch.Short? then ch.n else |TOKEN|);
    BarrierRecvPart(cfg, s, r, 0, Recvd([], true));
  }

  lemma BarrierTakes(cfg: Config, s: State, r: Role, n: nat)
    requires cfg.Valid() && Inv(cfg, s) && s.P(r).pc.BarrierRecv?
    ensures Inv(cfg, TakeBytes(cfg, s, r, n))
  {
    hide Inv, LocalStep;
    var st := s.Oob(r.Peer());
    if st.Valid() && n <= st.Avail() {
      BarrierRecvPart(cfg, s, r, n, Recvd(st.sent[st.taken..st.taken + n], false));
    }
  }

  lemma BarrierRecvPart(cfg: Config, s: State, r: Role, n: nat, o: Obs)
    requires cfg.Valid() && Inv(cfg, s) && s.P(r).pc.BarrierRecv?
    requires var st := s.Oob(r.Peer());
             && n <= st.Avail() && st.Valid()
             && (o == Recvd(st.sent[st.taken..st.taken + n], false) || (o == Recvd([], true) && n == 0))
    ensures Inv(cfg, s.WithOob(r.Peer(), s.Oob(r.Peer()).(taken := s.Oob(r.Peer()).taken + n))
                      .WithP(r, LocalStep(cfg, r, s.P(r), o)))
  {
    CommonIsLocal(cfg, r, s.P(r), o);
    BarrierRecvCall(cfg, r, s.P(r), o);
    var q := CommonStep(cfg, r, s.P(r), o);
    Locs();
    BarrierChannels(cfg, s, r, q);
    BarrierRet(cfg, s, r);
    TokenTaken(cfg, s, r, n, q);
    hide Loc, LocalStep, CommonStep, ChannelOk, StreamsOk, ClientOk, ServerOk;
  }

  lemma TokenTaken(cfg: Config, s: State, r: Role, n: nat, q: Proc)
    requires StreamsOk(cfg, s) && q.roleRet == s.P(r).roleRet == Some(0) && s.P(r).barrier == None
    requires s.P(r).pc.BarrierRecv? && q.pc.CloseSock? && n <= s.Oob(r.Peer()).Avail()
    requires q.barrier.Some? && (q.barrier == Some(0) ==> n == |TOKEN|)
    ensures StreamsOk(cfg, s.WithOob(r.Peer(), s.Oob(r.Peer()).(taken := s.Oob(r.Peer()).taken + n)).WithP(r, q))
  {
    Locs();
    hide Loc;
  }

  lemma BarrierPollInv(cfg: Config, s: State, r: Role, e: Event)
    requires cfg.Valid() && Inv(cfg, s) && s.P(r).pc.BarrierPoll?
    ensures Inv(cfg, BarrierPollStep(cfg, s, r, e))
  {
    BackgroundInv(cfg, s, r, e);
    var t := Background(s, r, e);
    BackgroundKeepsProcs(s, r, e);
    if PollReady(s, r) {
      CommonIsLocal(cfg, r, t.P(r), Readable(Nothing));
      BarrierPollCall(cfg, r, t.P(r), Nothing);
      QuietInv(cfg, t, r, CommonStep(cfg, r, t.P(r), Readable(Nothing)));
    }
    hide Background, OutOk, StreamsOk, QuietMove, LocalStep, CommonStep, ClientOk, ServerOk;
  }

  lemma BackgroundKeepsProcs(s: State, r: Role, e: Event)
    ensures Background(s, r, e).c == s.c && Background(s, r, e).s == s.s
  {
  }

  lemma PreProgressInv(cfg: Config, s: State, e: Event)
    requires cfg.Valid() && Inv(cfg, s) && s.s.pc.SPreProgress?
    ensures Inv(cfg, PreProgressStep(cfg, s, e))
  {
    BackgroundInv(cfg, s, Server, e);
    BackgroundKeepsProcs(s, Server, e);
    var t := if e.HandlerRuns? then s else Background(s, Server, e);
    if e.HandlerRuns? {
      if s.s.ep.Open? && s.s.epOk {
        ServerHandler(cfg, s.s);
        QuietInv(cfg, s, Server, ServerStep(cfg, s.s, Progress(PeerDown)));
      }
    } else {
      ServerPass(cfg, s.s);
      QuietInv(cfg, t, Server, ServerStep(cfg, s.s, Progress(Nothing)));
    }
    hide Background, OutOk, StreamsOk, QuietMove, ServerStep, ClientOk, ServerOk;
  }

  // -------------------------------------------------------------------------------------------
  // All steps, all runs
  // -------------------------------------------------------------------------------------------

  lemma ActInv(cfg: Config, s: State, r: Role, ch: Choice)
    requires cfg.Valid() && Inv(cfg, s)
    ensures Inv(cfg, Act1(cfg, s, r, ch))
  {
    hide Inv, Local, Pass, OobRecvStep, OobSendStep, PostSendStep, PostRecvStep, WaitSendStep, WaitRecvStep,
      ProbeHit, BarrierPollStep, PreProgressStep, Probeable, Flushed;
    RoleOf(cfg, s, r);
    var e := if ch.Ev? then ch.e else Idle;
    match s.P(r).pc
    case CRecvLen | CRecvAddr => ClientRecvInv(cfg, s, ch);
    case SSendLen | SSendAddr => ServerSendInv(cfg, s, ch);
    case CAllocPeer | CAllocOut | CAllocIn | CAllocStr
      | SAllocIn | SAllocPeer | SAllocOut | SGenAlloc => AllocInv(cfg, s, r, ch.Ok?);
    case CCreateEp | SCreateEp => CreateInv(cfg, s, r, ch.Ok?);
    case CPostSend | SPostSend => PostSendInv(cfg, s, r, ch);
    case CPostRecv | SPostRecv => PostRecvInv(cfg, s, r, ch);
    case CWaitSend | SWaitSend => WaitSendInv(cfg, s, r, e);
    case CWaitRecv | SWaitRecv => WaitRecvInv(cfg, s, r, e);
    case CProbe =>
      if Probeable(s.sc) { ProbeHitInv(cfg, s, Client); } else { PassInv(cfg, s, Client, e); }
    case SProbe =>
      PassInv(cfg, s, Server, e);
      var t := Pass(cfg, s, Server, e);
      ServerPassStays(cfg, s, e);
      if Probeable(t.cs) { ProbeHitInv(cfg, t, Server); }
    case SPreProgress => PreProgressInv(cfg, s, e);
    case SSpinFailed | SSpinKeepalive => PassInv(cfg, s, r, e);
    case SPostFlush | PostClose =>
      OpInv(cfg, s, r, Post(Later));
      OpInv(cfg, s, r, Post(Now));
      OpInv(cfg, s, r, Post(Refused));
    case SWaitFlush | WaitClose =>
      PassInv(cfg, s, r, e);
      OpInv(cfg, s, r, Progress(OpDone(true)));
      OpInv(cfg, s, r, Progress(OpDone(false)));
    case BarrierSend => BarrierSendInv(cfg, s, r, ch);
    case BarrierPoll => BarrierPollInv(cfg, s, r, e);
    case BarrierRecv => BarrierRecvInv(cfg, s, r, ch);
    case CloseSock | ReleaseAddr | DestroyWorker | CleanupCtx => CallInv(cfg, s, r);
    case Done | Killed =>
  }

  lemma ServerPassStays(cfg: Config, s: State, e: Event)
    requires Inv(cfg, s) && s.s.pc.SProbe?
    ensures Pass(cfg, s, Server, e).s.pc.SProbe?
  {
    BackgroundKeepsProcs(s, Server, e);
    hide Background, OutOk, StreamsOk;
  }

  lemma NextInv(cfg: Config, s: State, a: Action)
    requires cfg.Valid() && Inv(cfg, s)
    ensures Inv(cfg, Next(cfg, s, a))
  {
    hide Inv, Act1, DeliverStep;
    match a
    case Deliver(from, n) => DeliverInv(cfg, s, from, n);
    case Act(r, ch) => ActInv(cfg, s, r, ch);
  }

  lemma {:induction false} RunInv(cfg: Config, run: seq<State>, acts: seq<Action>, i: nat)
    requires cfg.Valid() && IsRun(cfg, run, acts) && i < |run|
    ensures Inv(cfg, run[i])
  {
    hide Inv, Next;
    if i == 0 {
      InitInv(cfg);
    } else {
      RunInv(cfg, run, acts, i - 1);
      NextInv(cfg, run[i - 1], acts[i - 1]);
    }
  }

  /** Every reachable state satisfies the invariant. */
  lemma ReachableInv(cfg: Config, s: State)
    requires cfg.Valid() && Reachable(cfg, s)
    ensures Inv(cfg, s)
  {
    var run, acts :| IsRun(cfg, run, acts) && run[|acts|] == s;
    RunInv(cfg, run, acts, |acts|);
  }
}
