/** Runs in which nothing fails except what the injected failures and the failure detector cause. */
module Clean {
  import opened Wire
  import opened Roles
  import opened Machine
  import opened Safety
  import opened Measure

  /** The peer is gone, and this process has an endpoint to it with peer failure handling. */
  predicate Detects(cfg: Config, s: State, r: Role) {
    Gone(s.P(r.Peer())) && cfg.Err(r).mode == HandlePeer && s.P(r).ep != NoEp
  }

  /** A call on the endpoint side may be turned down: the creation of the endpoint or any post, once the
      peer is gone and this process asked for peer failure handling. */
  predicate TurnsDown(cfg: Config, s: State, r: Role) {
    && s.P(r).pc in {CCreateEp, SCreateEp, CPostSend, SPostSend, CPostRecv, SPostRecv, SPostFlush, PostClose}
    && Gone(s.P(r.Peer())) && cfg.Err(r).mode == HandlePeer
  }

  /** A receive meets end of file: the peer closed, all bytes have arrived, fewer than asked remain. */
  predicate AtEof(s: State, r: Role, n: nat) {
    var st := s.Oob(r.Peer());
    SockClosed(s.P(r.Peer())) && st.arrived == |st.sent| && st.Avail() == n
  }

  /** Allocations and socket calls succeed; a UCX call is turned down, a handler runs or an operation
      breaks only after the peer is gone and only under peer failure handling. */
  predicate IsClean(cfg: Config, s: State, a: Action) {
    match a
    case Deliver(from, n) => true
    case Act(r, ch) =>
      match ch
      case Ok | Null | Request(_) => true
      case Fail => TurnsDown(cfg, s, r)
      case Short(n) => s.P(r).pc.BarrierRecv? && AtEof(s, r, n)
      case Ev(e) => (e.Break? || e.HandlerRuns?) ==> Detects(cfg, s, r)
  }

  /** parse_cmd sets the two error fields together. */
  predicate Coupled(e: ErrHandling) {
    e.mode == HandlePeer <==> e.failure != NoFailure
  }

  predicate Accepted(cfg: Config) {
    cfg.Valid() && Coupled(cfg.clientErr) && Coupled(cfg.serverErr)
  }

  predicate IsCleanRun(cfg: Config, run: seq<State>, acts: seq<Action>) {
    && IsRun(cfg, run, acts)
    && forall i {:trigger acts[i]} :: 0 <= i < |acts| ==> IsClean(cfg, run[i], acts[i])
  }

  ghost predicate CleanReachable(cfg: Config, s: State) {
    exists run, acts :: IsCleanRun(cfg, run, acts) && run[|acts|] == s
  }

  // -------------------------------------------------------------------------------------------
  // Each process alone
  // -------------------------------------------------------------------------------------------

  /** Without failure emulation this role succeeds: always the client, the server if its text fits. */
  predicate Succeeds(cfg: Config, r: Role) {
    cfg.Failure(r) == NoFailure && (r.Client? || ToInt32(cfg.serverLen) >= 0)
  }

  /** Once the role is closing its endpoint its result is v. */
  predicate Returns(l: nat, p: Proc, v: int) {
    && (POST_CLOSE <= l <= WAIT_CLOSE ==> p.ret == v)
    && (WAIT_CLOSE < l < KILLED ==> p.roleRet == Some(v))
  }

  predicate CleanProc(cfg: Config, r: Role, p: Proc) {
    var l := Loc(p.pc);
    && (l < CLOSE_SOCK || l == KILLED || p.roleRet.Some?)
    && (p.pc.CProbe? || p.pc.SSpinKeepalive? || cfg.Failure(r) == NoFailure ==> p.epOk)
    && !p.pc.SSpinFailed?
    && (POST_CLOSE <= l < KILLED && cfg.Failure(r) == NoFailure ==> p.ep != NoEp)
    && (Succeeds(cfg, r) ==> Returns(l, p, 0))
    && (r.Server? && cfg.Failure(r) == NoFailure && ToInt32(cfg.serverLen) < 0 ==> Returns(l, p, -1))
    && (r.Server? && cfg.Failure(r) == SendFailure ==>
          l < S_ALLOC_PEER || l == KILLED || (l >= CLOSE_SOCK && cfg.clientErr.failure == RecvFailure))
    && (r.Server? && S_CREATE_EP <= l < KILLED ==>
          p.addrCopied || (cfg.clientErr.failure == RecvFailure && cfg.serverErr.mode == HandlePeer))
  }

  /** The call was turned down, or the process was told that its peer is gone. */
  predicate Bad(o: Obs) {
    || o == Created(false) || o == Post(Refused)
    || (o.Progress? && (o.seen == PeerDown || o.seen == SendDone(false) || o.seen == OpDone(false)
                        || (o.seen.RecvDone? && !o.seen.received)))
  }

  /** Results a clean step may hand to a process. */
  predicate CleanObs(cfg: Config, r: Role, p: Proc, o: Obs) {
    match o
    case Recvd(bytes, failed) =>
      !failed && (p.pc.CRecvLen? ==> |bytes| == HEADER) && (p.pc.CRecvAddr? ==> |bytes| == p.seen)
    case Sent(n) =>
      n >= 0 && (p.pc.SSendLen? ==> n == HEADER) && (p.pc.SSendAddr? ==> n == |cfg.serverAddr|)
    case Alloc(granted) => granted
    case Created(made) => Bad(o) ==> cfg.Err(r).mode == HandlePeer
    case Post(posted) =>
      Bad(o) ==> cfg.Err(r).mode == HandlePeer && (p.pc.SPostRecv? ==> cfg.clientErr.failure == RecvFailure)
    case Progress(seen) => Bad(o) ==> cfg.Err(r).mode == HandlePeer && p.ep != NoEp
    case _ => true
  }

  lemma CleanCommon(cfg: Config, r: Role, p: Proc, o: Obs)
    requires Accepted(cfg) && ProcOk(cfg, r, p) && CleanProc(cfg, r, p) && CleanObs(cfg, r, p, o) && InCommon(p.pc)
    ensures CleanProc(cfg, r, CommonStep(cfg, r, p, o))
  {
    Locs();
    hide Loc;
  }

  lemma CleanClient(cfg: Config, p: Proc, o: Obs)
    requires Accepted(cfg) && ClientOk(cfg, p) && CleanProc(cfg, Client, p) && CleanObs(cfg, Client, p, o)
         && !InCommon(p.pc)
    ensures CleanProc(cfg, Client, ClientStep(cfg, p, o))
  {
    Locs();
    hide Loc, CommonStep, Printf, ServerPayload, Frame, Zeros, CopyPayload, Bytes, Value, FirstNul;
  }

  lemma CleanServer(cfg: Config, p: Proc, o: Obs)
    requires Accepted(cfg) && ServerOk(cfg, p) && CleanProc(cfg, Server, p) && CleanObs(cfg, Server, p, o)
         && !InCommon(p.pc)
    ensures CleanProc(cfg, Server, ServerStep(cfg, p, o))
  {
    Locs();
    hide Loc, CommonStep, Printf, ServerPayload, Frame, Zeros, CopyPayload, Bytes, Value, FirstNul;
  }

  // -------------------------------------------------------------------------------------------
  // Channels and streams
  // -------------------------------------------------------------------------------------------

  /** What clean runs add to ChannelOk: posted messages are never dropped, the receiver stays with what
      it probed, and operations break only when a process is gone. */
  predicate CleanChannel(cfg: Config, ts: seq<Transfer>, from: Role, sl: nat, rl: nat,
                         senderGone: bool, receiverGone: bool)
  {
    var to := from.Peer();
    && (sl > PostAt(from) && (from.Client? || (sl != KILLED && ToInt32(cfg.serverLen) >= 0)) ==>
          ts != [] || receiverGone)
    && (from.Server? && (sl == KILLED || cfg.Failure(from) == SendFailure) ==> ts == [])
    && (to.Client? && rl == KILLED && cfg.Failure(to) == KeepaliveFailure ==> ts != [])
    && (rl > ProbeAt(to) && (ts == [] || ts[0].stage.OnWire? || ts[0].stage.Unexpected?) ==>
          to.Client? && (rl == KILLED || senderGone))
    && (to.Client? && cfg.Failure(to) == NoFailure && rl >= POST_CLOSE ==> ts != [] && ts[0].stage.Received?)
    && (ts != [] ==>
          var t := ts[0];
          && (t.aborted ==> receiverGone || t.stage.Received?)
          && (t.stage.Received? ==> t.data.Some? || (to.Client? && senderGone))
          && (t.stage.Claimed? ==> Holding(to, rl) || (to.Client? && rl == KILLED) || senderGone)
          && (from.Server? && cfg.Failure(from) == NoFailure && sl >= POST_CLOSE ==> !t.stage.OnWire? || t.aborted))
  }

  predicate CleanOut(cfg: Config, s: State, r: Role) {
    CleanChannel(cfg, s.Out(r), r, Loc(s.P(r).pc), Loc(s.P(r.Peer()).pc), Gone(s.P(r)), Gone(s.P(r.Peer())))
  }

  /** Bytes a role writes before its barrier token. */
  function Base(cfg: Config, r: Role): nat {
    if r.Client? then 0 else |Preamble(cfg)|
  }

  predicate TokenSent(cfg: Config, s: State, r: Role) {
    |s.Oob(r).sent| == Base(cfg, r) + |TOKEN|
  }

  /** What clean runs add about the stream r writes: nothing is cut short, and the peer enters its
      barrier receive only when there is a token or an end of file to receive. */
  predicate CleanStream(cfg: Config, s: State, r: Role) {
    var l, m := Loc(s.P(r).pc), Loc(s.P(r.Peer()).pc);
    && (RoleAt(r) <= l ==> Base(cfg, r) <= |s.Oob(r).sent|)
    && (|s.Oob(r).sent| > Base(cfg, r) ==> TokenSent(cfg, s, r) && cfg.Failure(r) == NoFailure)
    && (BARRIER_POLL <= l < KILLED && cfg.Failure(r) == NoFailure && s.P(r).roleRet == Some(0) ==>
          TokenSent(cfg, s, r))
    && (m == BARRIER_RECV ==> TokenSent(cfg, s, r) || SockClosed(s.P(r)))
    && (s.P(r.Peer()).barrier.Some? && Succeeds(cfg, r) ==> s.P(r.Peer()).barrier == Some(0))
  }

  predicate CleanInv(cfg: Config, s: State) {
    && CleanProc(cfg, Client, s.c) && CleanProc(cfg, Server, s.s)
    && (!s.c.epOk ==> Gone(s.s)) && (!s.s.epOk ==> Gone(s.c))
    && CleanOut(cfg, s, Client) && CleanOut(cfg, s, Server)
    && CleanStream(cfg, s, Client) && CleanStream(cfg, s, Server)
  }

  lemma InitClean(cfg: Config)
    requires Accepted(cfg)
    ensures CleanInv(cfg, Init())
  {
    Locs();
    hide Loc;
  }

  // -------------------------------------------------------------------------------------------
  // Clean moves that post, probe or receive nothing
  // -------------------------------------------------------------------------------------------

  predicate QuietObs(p: Proc, o: Obs) {
    match o
    case Post(posted) => posted == Refused || p.pc.SPostFlush? || p.pc.PostClose?
    case Probed(_) => false
    case Progress(seen) => !seen.SendDone? && !seen.RecvDone?
    case _ => true
  }

  /** A quiet clean move passes no send, probe or receive, unless it is turned down or told the peer is gone. */
  predicate CleanQuiet(cfg: Config, r: Role, p: Proc, o: Obs, q: Proc) {
    var l, m := Loc(p.pc), Loc(q.pc);
    && l <= m
    && (m == KILLED ==> l == KILLED)
    && (m <= PostAt(r) || l > PostAt(r) || (r.Server? && ToInt32(cfg.serverLen) < 0) || Bad(o))
    && (m <= ProbeAt(r) || l > ProbeAt(r) || (r.Client? && Bad(o)))
    && (Holding(r, l) ==> Holding(r, m) || Bad(o))
    && (r.Client? && cfg.Failure(r) == NoFailure && m >= POST_CLOSE ==> l >= POST_CLOSE || HasReceived(r, l))
    && (r.Server? && m >= POST_CLOSE ==> l >= POST_CLOSE || l <= PostAt(r) || p.pc.SPostFlush? || p.pc.SWaitFlush?)
    && (q.epOk || !p.epOk || o == Progress(PeerDown))
  }

  lemma QuietClient(cfg: Config, p: Proc, o: Obs)
    requires Accepted(cfg) && ClientOk(cfg, p) && CleanProc(cfg, Client, p) && CleanObs(cfg, Client, p, o)
         && !InCommon(p.pc)
    requires QuietObs(p, o)
    ensures CleanQuiet(cfg, Client, p, o, ClientStep(cfg, p, o))
  {
    Locs();
    hide Loc, CommonStep;
  }

  lemma QuietServer(cfg: Config, p: Proc, o: Obs)
    requires Accepted(cfg) && ServerOk(cfg, p) && CleanProc(cfg, Server, p) && CleanObs(cfg, Server, p, o)
         && !InCommon(p.pc)
    requires QuietObs(p, o)
    ensures CleanQuiet(cfg, Server, p, o, ServerStep(cfg, p, o))
  {
    Locs();
    hide Loc, CommonStep;
  }

  lemma QuietCommon(cfg: Config, r: Role, p: Proc, o: Obs)
    requires InCommon(p.pc)
    ensures CleanQuiet(cfg, r, p, o, CommonStep(cfg, r, p, o))
  {
    Locs();
    hide Loc;
  }

  lemma CleanOutStill(cfg: Config, s: State, r: Role, o: Obs, q: Proc)
    requires OutOk(cfg, s, r) && CleanOut(cfg, s, r) && CleanQuiet(cfg, r, s.P(r), o, q)
    requires Bad(o) ==> Gone(s.P(r.Peer()))
    requires s.P(r).pc.SPostFlush? || s.P(r).pc.SWaitFlush? ==>
               Loc(q.pc) < POST_CLOSE || cfg.Failure(r) != NoFailure || Flushed(s.Out(r))
    ensures CleanOut(cfg, s.WithP(r, q), r)
  {
    Locs();
    hide Loc;
  }

  lemma CleanInStill(cfg: Config, s: State, r: Role, o: Obs, q: Proc)
    requires OutOk(cfg, s, r.Peer()) && CleanOut(cfg, s, r.Peer()) && CleanQuiet(cfg, r, s.P(r), o, q)
    requires Bad(o) ==> Gone(s.P(r.Peer()))
    ensures CleanOut(cfg, s.WithP(r, q), r.Peer())
  {
    Locs();
    hide Loc;
  }

  /** The stream r writes, when r moves without writing. */
  lemma WriterStill(cfg: Config, s: State, r: Role, q: Proc)
    requires CleanStream(cfg, s, r)
    requires RoleAt(r) <= Loc(s.P(r).pc) <= Loc(q.pc) || (r.Client? && Loc(s.P(r).pc) <= Loc(q.pc))
    requires SockClosed(s.P(r)) ==> SockClosed(q)
    requires Loc(q.pc) >= BARRIER_POLL && cfg.Failure(r) == NoFailure && q.roleRet == Some(0) && q.pc != Killed ==>
               Loc(s.P(r).pc) >= BARRIER_POLL && s.P(r).roleRet == Some(0)
    ensures CleanStream(cfg, s.WithP(r, q), r)
  {
    Locs();
    hide Loc;
  }

  /** The stream r reads, when r moves without taking bytes. */
  lemma ReaderStill(cfg: Config, s: State, r: Role, q: Proc)
    requires CleanStream(cfg, s, r.Peer()) && q.barrier == s.P(r).barrier
    requires q.pc.BarrierRecv? ==> TokenSent(cfg, s, r.Peer()) || SockClosed(s.P(r.Peer()))
    ensures CleanStream(cfg, s.WithP(r, q), r.Peer())
  {
    Locs();
    BarrierRecvLoc(q.pc);
    hide Loc;
  }

  lemma BarrierRecvLoc(pc: Pc)
    ensures Loc(pc) == BARRIER_RECV <==> pc.BarrierRecv?
    ensures Loc(pc) == KILLED <==> pc.Killed?
  {
    CloseLocs();
    TeardownLocs();
  }

  /** Local facts the two lemmas above need of a quiet move. */
  predicate KeepsStreams(cfg: Config, r: Role, p: Proc, q: Proc) {
    && (SockClosed(p) ==> SockClosed(q))
    && (Loc(q.pc) >= BARRIER_POLL && cfg.Failure(r) == NoFailure && q.roleRet == Some(0) && q.pc != Killed ==>
          Loc(p.pc) >= BARRIER_POLL && p.roleRet == Some(0))
    && q.barrier == p.barrier
    && (q.pc.BarrierRecv? ==> p.pc.BarrierRecv? || p.pc.BarrierPoll?)
  }

  lemma KeepsClient(cfg: Config, p: Proc, o: Obs)
    requires ClientOk(cfg, p) && !InCommon(p.pc)
    ensures KeepsStreams(cfg, Client, p, ClientStep(cfg, p, o))
  {
    Locs();
    hide Loc, CommonStep, LengthCheck, Printf, Frame, Zeros, CopyPayload, Bytes, Value, FirstNul;
  }

  lemma KeepsServer(cfg: Config, p: Proc, o: Obs)
    requires ServerOk(cfg, p) && !InCommon(p.pc)
    ensures KeepsStreams(cfg, Server, p, ServerStep(cfg, p, o))
  {
    Locs();
    hide Loc, CommonStep, LengthCheck, Printf, Frame, Zeros, CopyPayload;
  }

  lemma KeepsCommon(cfg: Config, r: Role, p: Proc, o: Obs)
    requires ProcOk(cfg, r, p) && InCommon(p.pc) && !o.Sent? && !o.Recvd?
    ensures KeepsStreams(cfg, r, p, CommonStep(cfg, r, p, o))
  {
    Locs();
    hide Loc;
  }

  // -------------------------------------------------------------------------------------------
  // Preservation of CleanInv by the kinds of steps
  // -------------------------------------------------------------------------------------------

  predicate NoIo(o: Obs) {
    !o.Sent? && !o.Recvd?
  }

  /** Everything the quiet lemmas say of r's local step, whichever role r is. */
  lemma QuietLocal(cfg: Config, s: State, r: Role, o: Obs)
    requires Accepted(cfg) && Inv(cfg, s) && CleanInv(cfg, s)
    requires CleanObs(cfg, r, s.P(r), o) && QuietObs(s.P(r), o) && NoIo(o)
    ensures var p, q := s.P(r), LocalStep(cfg, r, s.P(r), o);
            CleanQuiet(cfg, r, p, o, q) && KeepsStreams(cfg, r, p, q) && CleanProc(cfg, r, q)
  {
    var p := s.P(r);
    if InCommon(p.pc) {
      CommonIsLocal(cfg, r, p, o);
      QuietCommon(cfg, r, p, o);
      KeepsCommon(cfg, r, p, o);
      CleanCommon(cfg, r, p, o);
    } else if r.Client? {
      QuietClient(cfg, p, o);
      KeepsClient(cfg, p, o);
      CleanClient(cfg, p, o);
    } else {
      QuietServer(cfg, p, o);
      KeepsServer(cfg, p, o);
      CleanServer(cfg, p, o);
    }
    hide LocalStep, CleanQuiet, KeepsStreams, CleanProc, ClientOk, ServerOk, OutOk, StreamsOk;
  }

  lemma QuietClean(cfg: Config, s: State, r: Role, o: Obs)
    requires Accepted(cfg) && Inv(cfg, s) && CleanInv(cfg, s)
    requires CleanObs(cfg, r, s.P(r), o) && QuietObs(s.P(r), o) && NoIo(o)
    requires Bad(o) ==> Gone(s.P(r.Peer()))
    requires s.P(r).pc.SPostFlush? || s.P(r).pc.SWaitFlush? ==>
               o == Post(Later) || o == Progress(PeerDown) || cfg.Failure(r) != NoFailure || Flushed(s.Out(r))
    requires s.P(r).pc.BarrierPoll? && o.Readable? ==> PollReady(s, r)
    requires r.Server? ==> RoleAt(r) <= Loc(s.P(r).pc)
    ensures CleanInv(cfg, Local(cfg, s, r, o))
  {
    Locs();
    hide Loc, Inv, LocalStep, ProcOk, ClientOk, ServerOk, CleanProc, OutOk, CleanChannel, Flushed, PollReady, QuietObs;
    var p := s.P(r);
    var q := LocalStep(cfg, r, p, o);
    QuietLocal(cfg, s, r, o);
    InvParts(cfg, s, r);
    if (p.pc.SPostFlush? || p.pc.SWaitFlush?) && (o == Post(Later) || o == Progress(PeerDown)) {
      FlushLater(cfg, s, r, o);
    }
    if p.pc.BarrierPoll? && o.Readable? {
      PollToken(cfg, s, r);
    }
    if q.pc.BarrierRecv? {
      PollReadable(cfg, r, p, o);
    }
    assert q.pc.BarrierRecv? ==> TokenSent(cfg, s, r.Peer()) || SockClosed(s.P(r.Peer()));
    hide CleanStream;
    CleanOutStill(cfg, s, r, o, q);
    CleanInStill(cfg, s, r, o, q);
    assert Loc(p.pc) <= Loc(q.pc) by { hide CleanOut; }
    WriterStill(cfg, s, r, q);
    ReaderStill(cfg, s, r, q);
    hide CleanQuiet, KeepsStreams;
  }

  lemma InvParts(cfg: Config, s: State, r: Role)
    requires Inv(cfg, s)
    ensures OutOk(cfg, s, r) && OutOk(cfg, s, r.Peer()) && ProcOk(cfg, r, s.P(r)) && StreamsOk(cfg, s)
  {
    hide ClientOk, ServerOk, OutOk, StreamsOk;
  }

  /** Only the poll, when it reports the stream readable, leads to the barrier's receive. */
  lemma PollReadable(cfg: Config, r: Role, p: Proc, o: Obs)
    requires KeepsStreams(cfg, r, p, LocalStep(cfg, r, p, o)) && LocalStep(cfg, r, p, o).pc.BarrierRecv?
    ensures p.pc.BarrierRecv? || (p.pc.BarrierPoll? && (o.Readable? || !NoIo(o)))
  {
    hide ClientStep, ServerStep;
    if p.pc.BarrierPoll? {
      CommonIsLocal(cfg, r, p, o);
    }
  }

  lemma FlushLater(cfg: Config, s: State, r: Role, o: Obs)
    requires Inv(cfg, s) && (s.P(r).pc.SPostFlush? || s.P(r).pc.SWaitFlush?)
    requires o == Post(Later) || o == Progress(PeerDown)
    ensures Loc(LocalStep(cfg, r, s.P(r), o).pc) < POST_CLOSE
  {
    hide Inv, Loc, ClientStep, CommonStep;
    FlushRole(cfg, s, r);
    Locs();
  }

  lemma PollToken(cfg: Config, s: State, r: Role)
    requires Inv(cfg, s) && CleanInv(cfg, s) && s.P(r).pc.BarrierPoll? && PollReady(s, r)
    ensures TokenSent(cfg, s, r.Peer()) || SockClosed(s.P(r.Peer()))
  {
    BarrierRet(cfg, s, r);
    Locs();
    hide Loc, OutOk, ProcOk, ClientOk, ServerOk, CleanProc, CleanOut;
  }

  // Posting, probing, receiving.

  /** Where a clean send may lead: the client keeps receiving, dies, or has been told the peer is gone. */
  predicate SendLeads(cfg: Config, r: Role, p: Proc, o: Obs, q: Proc) {
    && Loc(q.pc) > PostAt(r) && (SendPending(r, Loc(q.pc)) <==> o == Post(Later))
    && q.epOk == p.epOk && q.barrier == p.barrier && q.roleRet == p.roleRet == None
    && Loc(q.pc) != BARRIER_RECV
    && (r.Client? ==> Loc(q.pc) <= ProbeAt(r) || q.pc.Killed? || !p.epOk || o == Progress(SendDone(false)))
    && (r.Client? && cfg.Failure(r) == NoFailure ==> Loc(q.pc) < POST_CLOSE)
    && (r.Server? ==> Loc(q.pc) < POST_CLOSE || (cfg.Failure(r) != NoFailure && Loc(q.pc) == POST_CLOSE))
    && (Gone(q) ==> q.pc.Killed?)
    && (q.pc.Killed? ==> cfg.Failure(r) == RecvFailure)
    && (r.Server? ==> cfg.Failure(r) != SendFailure)
  }

  lemma SendLeadsClient(cfg: Config, p: Proc, o: Obs)
    requires Accepted(cfg) && ClientOk(cfg, p) && CleanProc(cfg, Client, p) && CleanObs(cfg, Client, p, o)
    requires (p.pc.CPostSend? && o.Post? && o != Post(Refused)) || (p.pc.CWaitSend? && o.Progress? && o.seen.SendDone?)
    ensures SendLeads(cfg, Client, p, o, ClientStep(cfg, p, o))
  {
    Locs();
    hide Loc, CommonStep;
  }

  lemma SendLeadsServer(cfg: Config, p: Proc, o: Obs)
    requires Accepted(cfg) && ServerOk(cfg, p) && CleanProc(cfg, Server, p) && CleanObs(cfg, Server, p, o)
    requires (p.pc.SPostSend? && o.Post? && o != Post(Refused)) || (p.pc.SWaitSend? && o.Progress? && o.seen.SendDone?)
    ensures SendLeads(cfg, Server, p, o, ServerStep(cfg, p, o))
  {
    Locs();
    hide Loc, CommonStep;
  }

  lemma CleanPosted(cfg: Config, s: State, r: Role, t: Transfer, o: Obs, q: Proc)
    requires OutOk(cfg, s, r) && CleanOut(cfg, s, r) && s.Out(r) == [] && SendLeads(cfg, r, s.P(r), o, q)
    requires t.stage.OnWire? && !t.aborted && !Gone(s.P(r))
    requires o == Progress(SendDone(false)) ==> Gone(s.P(r.Peer()))
    ensures CleanOut(cfg, s.WithOut(r, [t]).WithP(r, q), r)
  {
    Locs();
    hide Loc;
  }

  lemma CleanSent(cfg: Config, s: State, r: Role, abort: bool, o: Obs, q: Proc)
    requires OutOk(cfg, s, r) && CleanOut(cfg, s, r) && SendPending(r, Loc(s.P(r).pc))
         && SendLeads(cfg, r, s.P(r), o, q)
    requires abort ==> Gone(s.P(r.Peer()))
    ensures CleanOut(cfg, (if abort then s.WithOut(r, AbortLast(s.Out(r))) else s).WithP(r, q), r)
  {
    Locs();
    hide Loc;
  }

  lemma CleanInSend(cfg: Config, s: State, r: Role, o: Obs, q: Proc)
    requires OutOk(cfg, s, r.Peer()) && CleanOut(cfg, s, r.Peer()) && SendLeads(cfg, r, s.P(r), o, q)
    requires Loc(s.P(r).pc) in {PostAt(r), PostAt(r) + 1}
    requires o == Progress(SendDone(false)) || !s.P(r).epOk ==> Gone(s.P(r.Peer()))
    ensures CleanOut(cfg, s.WithP(r, q), r.Peer())
  {
    Locs();
    hide Loc;
  }

  /** The parts of CleanInv that follow from a move of r alone, channels aside. */
  lemma AssembleClean(cfg: Config, s: State, t: State, r: Role)
    requires CleanInv(cfg, s) && Inv(cfg, s)
    requires t.P(r.Peer()) == s.P(r.Peer()) && t.oobCS == s.oobCS && t.oobSC == s.oobSC
    requires CleanOut(cfg, t, r) && CleanOut(cfg, t, r.Peer())
    requires var p, q := s.P(r), t.P(r);
             && CleanProc(cfg, r, q) && q.barrier == p.barrier && (SockClosed(p) ==> SockClosed(q))
             && RoleAt(r) <= Loc(p.pc) <= Loc(q.pc) && (Loc(q.pc) < BARRIER_SEND || q.pc.Killed?)
             && (Gone(p) ==> Gone(q)) && (q.epOk == p.epOk)
    ensures CleanInv(cfg, t)
  {
    BarrierRecvLoc(t.P(r).pc);
    Locs();
    hide Loc, ProcOk, ClientOk, ServerOk, OutOk, CleanProc, CleanChannel;
  }

  /** The same for a move of r that wrote to or read from a stream. */
  lemma AssembleStreamed(cfg: Config, s: State, t: State, r: Role)
    requires CleanInv(cfg, s) && t.P(r.Peer()) == s.P(r.Peer())
    requires CleanOut(cfg, t, r) && CleanOut(cfg, t, r.Peer())
    requires CleanStream(cfg, t, Client) && CleanStream(cfg, t, Server)
    requires CleanProc(cfg, r, t.P(r)) && t.P(r).epOk == s.P(r).epOk && (Gone(s.P(r)) ==> Gone(t.P(r)))
    ensures CleanInv(cfg, t)
  {
    hide Loc, CleanProc, CleanOut, CleanStream;
  }

  /** A send that was posted, or that ended, moves its process on, towards its close or its kill. */
  predicate SendsOn(cfg: Config, r: Role, p: Proc, o: Obs, q: Proc) {
    && SendLeads(cfg, r, p, o, q) && CleanProc(cfg, r, q) && !Gone(p) && !SockClosed(p)
    && Loc(p.pc) in {PostAt(r), PostAt(r) + 1} && RoleAt(r) <= Loc(p.pc) < Loc(q.pc)
    && (Loc(q.pc) < BARRIER_SEND || q.pc.Killed?)
    && (p.pc in {CWaitSend, SWaitSend} <==> SendPending(r, Loc(p.pc)))
    && p.heap.outMsg.Some?
  }

  lemma SendingClient(cfg: Config, p: Proc, o: Obs)
    requires Accepted(cfg) && ClientOk(cfg, p) && CleanProc(cfg, Client, p) && CleanObs(cfg, Client, p, o)
    requires (p.pc.CPostSend? && o.Post? && o != Post(Refused)) || (p.pc.CWaitSend? && o.Progress? && o.seen.SendDone?)
    ensures SendsOn(cfg, Client, p, o, ClientStep(cfg, p, o))
  {
    Locs();
    SendLeadsClient(cfg, p, o);
    CleanClient(cfg, p, o);
    KilledLoc(ClientStep(cfg, p, o).pc);
    hide Loc, ClientStep, CleanProc;
  }

  lemma SendingServer(cfg: Config, p: Proc, o: Obs)
    requires Accepted(cfg) && ServerOk(cfg, p) && CleanProc(cfg, Server, p) && CleanObs(cfg, Server, p, o)
    requires (p.pc.SPostSend? && o.Post? && o != Post(Refused)) || (p.pc.SWaitSend? && o.Progress? && o.seen.SendDone?)
    ensures SendsOn(cfg, Server, p, o, ServerStep(cfg, p, o))
  {
    Locs();
    SendLeadsServer(cfg, p, o);
    CleanServer(cfg, p, o);
    KilledLoc(ServerStep(cfg, p, o).pc);
    hide Loc, ServerStep, CleanProc;
  }

  lemma SendingClean(cfg: Config, s: State, r: Role, o: Obs)
    requires Accepted(cfg) && Inv(cfg, s) && CleanInv(cfg, s) && CleanObs(cfg, r, s.P(r), o)
    requires (s.P(r).pc in {CPostSend, SPostSend} && o.Post? && o != Post(Refused))
          || (s.P(r).pc in {CWaitSend, SWaitSend} && o.Progress? && o.seen.SendDone?)
    ensures SendsOn(cfg, r, s.P(r), o, LocalStep(cfg, r, s.P(r), o))
  {
    InvParts(cfg, s, r);
    SendRole(cfg, s, r);
    hide Inv, OutOk, StreamsOk, CleanOut, CleanStream, ClientOk, ServerOk, CleanObs, SendsOn;
    if r.Client? { SendingClient(cfg, s.c, o); } else { SendingServer(cfg, s.s, o); }
  }

  lemma SendRole(cfg: Config, s: State, r: Role)
    requires Inv(cfg, s)
    ensures s.P(r).pc in {CPostSend, CWaitSend} ==> r.Client?
    ensures s.P(r).pc in {SPostSend, SWaitSend} ==> r.Server?
  {
    hide OutOk, StreamsOk;
  }

  lemma KilledLoc(pc: Pc)
    ensures Loc(pc) == KILLED <==> pc.Killed?
    ensures Loc(pc) == POST_CLOSE <==> pc.PostClose?
  {
    CloseLocs();
    TeardownLocs();
  }

  lemma PostSendClean(cfg: Config, s: State, r: Role, ch: Choice)
    requires Accepted(cfg) && Inv(cfg, s) && CleanInv(cfg, s)
    requires s.P(r).pc in {CPostSend, SPostSend} && !ch.Fail?
    ensures CleanInv(cfg, PostSendStep(cfg, s, r, ch))
  {
    hide Inv, CleanInv, LocalStep, ProcOk, ClientOk, ServerOk, CleanProc, StreamsOk, OutOk, CleanChannel, CleanStream,
      Loc, SendLeads, SockClosed;
    if ch.Null? || ch.Request? {
      var o := if ch.Null? then Post(Now) else Post(Later);
      AtMostOne(cfg, s);
      PostRole(cfg, s, r);
      InvParts(cfg, s, r);
      CleanParts(cfg, s, r);
      SendingClean(cfg, s, r, o);
      NotOkGone(cfg, s, r);
      var q := LocalStep(cfg, r, s.P(r), o);
      var t := PostSendStep(cfg, s, r, ch);
      CleanPosted(cfg, s, r, t.Out(r)[0], o, q);
      CleanInSend(cfg, s, r, o, q);
      assert t.Out(r) == [t.Out(r)[0]];
      AssembleSend(cfg, s, t, r, o);
    }
  }

  lemma CleanParts(cfg: Config, s: State, r: Role)
    requires CleanInv(cfg, s)
    ensures CleanOut(cfg, s, r) && CleanOut(cfg, s, r.Peer()) && CleanStream(cfg, s, r) && CleanStream(cfg, s, r.Peer())
  {
    hide CleanProc, CleanChannel, CleanStream;
  }

  lemma NotOkGone(cfg: Config, s: State, r: Role)
    requires CleanInv(cfg, s)
    ensures !s.P(r).epOk ==> Gone(s.P(r.Peer()))
  {
    hide CleanProc, CleanOut, CleanStream, Loc;
  }

  lemma AssembleSend(cfg: Config, s: State, t: State, r: Role, o: Obs)
    requires Accepted(cfg) && CleanInv(cfg, s) && Inv(cfg, s) && CleanObs(cfg, r, s.P(r), o)
    requires t.P(r.Peer()) == s.P(r.Peer()) && t.oobCS == s.oobCS && t.oobSC == s.oobSC
    requires CleanOut(cfg, t, r) && CleanOut(cfg, t, r.Peer())
    requires (s.P(r).pc in {CPostSend, SPostSend} && o.Post? && o != Post(Refused))
          || (s.P(r).pc in {CWaitSend, SWaitSend} && o.Progress? && o.seen.SendDone?)
    requires t.P(r) == LocalStep(cfg, r, s.P(r), o)
    ensures CleanInv(cfg, t)
  {
    SendingClean(cfg, s, r, o);
    hide LocalStep, Inv, CleanOut, CleanProc, CleanInv, Loc, SockClosed;
    AssembleClean(cfg, s, t, r);
  }

  lemma BackgroundClean(cfg: Config, s: State, r: Role, e: Event)
    requires cfg.Valid() && Inv(cfg, s) && CleanInv(cfg, s)
    ensures CleanInv(cfg, Background(s, r, e))
  {
    if e.MoveIn? && CanMove(s, r.Peer(), RndvGet) {
      MoveInv(cfg, s, r.Peer(), RndvGet);
      MoveClean(cfg, s, r.Peer());
    } else if e.MoveOut? && CanMove(s, r, RndvPut) {
      MoveInv(cfg, s, r, RndvPut);
      MoveClean(cfg, s, r);
    } else if e.Arrive? {
      ArriveClean(cfg, s, r);
    }
    hide Inv, CleanInv, Move, CanMove;
  }

  lemma MoveClean(cfg: Config, s: State, from: Role)
    requires cfg.Valid() && Inv(cfg, s) && CleanInv(cfg, s) && Find(s.Out(from), Matched) < |s.Out(from)|
    requires s.P(from).heap.outMsg.Some? && s.P(from.Peer()).heap.inMsg.Some?
    ensures CleanInv(cfg, Move(s, from))
  {
    AtMostOne(cfg, s);
    Locs();
    hide Inv, Loc, CleanProc, SockClosed;
  }

  lemma ArriveClean(cfg: Config, s: State, r: Role)
    requires cfg.Valid() && Inv(cfg, s) && CleanInv(cfg, s)
    ensures CleanInv(cfg, Background(s, r, Arrive))
  {
    hide Inv, Loc, CleanProc, SockClosed;
    AtMostOne(cfg, s);
    Locs();
  }

  /** Locations of the loops that drive progress are all past the address exchange. */
  lemma LoopLoc(cfg: Config, s: State, r: Role)
    requires Inv(cfg, s) && InWaitLoop(s.P(r).pc)
    ensures RoleAt(r) <= Loc(s.P(r).pc) < BARRIER_SEND && !Gone(s.P(r)) && !SockClosed(s.P(r))
  {
    Locs();
    hide Loc, OutOk, StreamsOk;
  }

  lemma PassClean(cfg: Config, s: State, r: Role, e: Event)
    requires Accepted(cfg) && Inv(cfg, s) && CleanInv(cfg, s) && InWaitLoop(s.P(r).pc)
    requires e.HandlerRuns? ==> Detects(cfg, s, r)
    ensures CleanInv(cfg, Pass(cfg, s, r, e))
  {
    hide Inv, CleanInv, Loc, Local, Background;
    BackgroundClean(cfg, s, r, e);
    LoopLoc(cfg, s, r);
    if e.HandlerRuns? && s.P(r).ep.Open? && s.P(r).epOk {
      QuietClean(cfg, s, r, Progress(PeerDown));
    }
  }

  lemma WaitSendClean(cfg: Config, s: State, r: Role, e: Event)
    requires Accepted(cfg) && Inv(cfg, s) && CleanInv(cfg, s) && s.P(r).pc in {CWaitSend, SWaitSend}
    requires e.Break? || e.HandlerRuns? ==> Detects(cfg, s, r)
    ensures CleanInv(cfg, WaitSendStep(cfg, s, r, e))
  {
    hide Inv, CleanInv, Pass, LocalStep, ProcOk, ClientOk, ServerOk, CleanProc, StreamsOk, OutOk, CleanChannel,
      CleanStream, Loc, SendLeads, SockClosed, SendCanComplete, AbortLast;
    if e.Break? || (e.Complete? && SendCanComplete(s, r)) {
      var o := Progress(SendDone(e.Complete?));
      InvParts(cfg, s, r);
      CleanParts(cfg, s, r);
      NotOkGone(cfg, s, r);
      SendingClean(cfg, s, r, o);
      var q := LocalStep(cfg, r, s.P(r), o);
      CleanSent(cfg, s, r, e.Break?, o, q);
      CleanInSend(cfg, s, r, o, q);
      AssembleSend(cfg, s, WaitSendStep(cfg, s, r, e), r, o);
    } else if !e.Complete? {
      PassClean(cfg, s, r, e);
    }
  }

  /** A successful probe, and the two ends of a receive: the move goes on, or to the injected kill. */
  predicate RecvLeads(cfg: Config, r: Role, p: Proc, o: Obs, q: Proc) {
    var l, m := Loc(p.pc), Loc(q.pc);
    && l < m && RoleAt(r) <= l
    && (m < BARRIER_SEND || q.pc.Killed?)
    && q.epOk == p.epOk && q.barrier == p.barrier
    && (q.pc.Killed? ==> cfg.Failure(r) != NoFailure)
    && (r.Server? ==> m <= PostAt(r) || q.pc.Killed?)
    && (r.Server? ==> l < PostAt(r))
    && (r.Client? ==> l > PostAt(r))
    && (match o
        case Probed(len) => m == ProbeAt(r) + 1 || (r.Client? && q.pc.Killed?)
        case Post(_) => m == ProbeAt(r) + 3
        case Progress(seen) =>
          if seen.RecvDone? && seen.received then m == ProbeAt(r) + 4 || (r.Server? && q.pc.Killed?)
          else r.Client? && cfg.Failure(r) != NoFailure && q.pc.PostClose?
        case _ => true)
  }

  /** A probe hit, the acceptance of the receive, or its end. */
  predicate ReceiveResult(r: Role, p: Proc, o: Obs) {
    || ((if r.Client? then p.pc.CProbe? else p.pc.SProbe?) && o.Probed?)
    || ((if r.Client? then p.pc.CPostRecv? else p.pc.SPostRecv?) && o == Post(Later))
    || ((if r.Client? then p.pc.CWaitRecv? else p.pc.SWaitRecv?) && o.Progress? && o.seen.RecvDone?)
  }

  predicate ReceivesOn(cfg: Config, r: Role, p: Proc, o: Obs, q: Proc) {
    RecvLeads(cfg, r, p, o, q) && CleanProc(cfg, r, q) && !Gone(p) && !SockClosed(p)
  }

  lemma ReceivingClient(cfg: Config, p: Proc, o: Obs)
    requires Accepted(cfg) && ClientOk(cfg, p) && CleanProc(cfg, Client, p) && CleanObs(cfg, Client, p, o)
    requires ReceiveResult(Client, p, o)
    ensures ReceivesOn(cfg, Client, p, o, ClientStep(cfg, p, o))
  {
    Locs();
    CleanClient(cfg, p, o);
    KilledLoc(ClientStep(cfg, p, o).pc);
    hide Loc, CommonStep, CleanProc;
  }

  lemma ReceivingServer(cfg: Config, p: Proc, o: Obs)
    requires Accepted(cfg) && ServerOk(cfg, p) && CleanProc(cfg, Server, p) && CleanObs(cfg, Server, p, o)
    requires ReceiveResult(Server, p, o)
    ensures ReceivesOn(cfg, Server, p, o, ServerStep(cfg, p, o))
  {
    Locs();
    CleanServer(cfg, p, o);
    KilledLoc(ServerStep(cfg, p, o).pc);
    hide Loc, CommonStep, CleanProc;
  }

  lemma ReceivingClean(cfg: Config, s: State, r: Role, o: Obs)
    requires Accepted(cfg) && Inv(cfg, s) && CleanInv(cfg, s) && CleanObs(cfg, r, s.P(r), o)
    requires ReceiveResult(r, s.P(r), o)
    ensures ReceivesOn(cfg, r, s.P(r), o, LocalStep(cfg, r, s.P(r), o))
  {
    InvParts(cfg, s, r);
    hide Inv, OutOk, StreamsOk, CleanOut, CleanStream, ClientOk, ServerOk, CleanObs, ReceivesOn, ReceiveResult;
    if r.Client? { ReceivingClient(cfg, s.c, o); } else { ReceivingServer(cfg, s.s, o); }
  }

  lemma CleanOutRecv(cfg: Config, s: State, r: Role, o: Obs, q: Proc)
    requires OutOk(cfg, s, r) && CleanOut(cfg, s, r) && RecvLeads(cfg, r, s.P(r), o, q)
    ensures CleanOut(cfg, s.WithP(r, q), r)
  {
    Locs();
    hide Loc;
  }

  lemma CleanProbed(cfg: Config, s: State, r: Role, o: Obs, q: Proc)
    requires OutOk(cfg, s, r.Peer()) && CleanOut(cfg, s, r.Peer()) && RecvLeads(cfg, r, s.P(r), o, q)
    requires Probeable(s.Out(r.Peer())) && o.Probed?
    ensures var inc := s.Out(r.Peer());
            CleanOut(cfg, s.WithOut(r.Peer(), SetStage(inc, Find(inc, Unexpected), Claimed)).WithP(r, q), r.Peer())
  {
    Locs();
    hide Loc;
  }

  lemma CleanMatched(cfg: Config, s: State, r: Role, o: Obs, q: Proc)
    requires OutOk(cfg, s, r.Peer()) && CleanOut(cfg, s, r.Peer()) && RecvLeads(cfg, r, s.P(r), o, q)
    requires Loc(s.P(r).pc) == ProbeAt(r) + 2 && o.Post?
    ensures var inc := s.Out(r.Peer());
            && Find(inc, Claimed) < |inc|
            && CleanOut(cfg, s.WithOut(r.Peer(), SetStage(inc, Find(inc, Claimed), Matched)).WithP(r, q), r.Peer())
  {
    Locs();
    hide Loc;
  }

  lemma CleanReceived(cfg: Config, s: State, r: Role, o: Obs, q: Proc)
    requires OutOk(cfg, s, r.Peer()) && CleanOut(cfg, s, r.Peer()) && RecvLeads(cfg, r, s.P(r), o, q)
    requires Loc(s.P(r).pc) == ProbeAt(r) + 3 && o.Progress? && o.seen.RecvDone?
    requires var inc := s.Out(r.Peer());
             && Find(inc, Matched) < |inc|
             && (o.seen.received ==> inc[Find(inc, Matched)].data.Some?)
             && (!o.seen.received ==> Gone(s.P(r.Peer())))
    ensures var inc := s.Out(r.Peer()); var k := Find(inc, Matched);
            var t := inc[k].(stage := Received, aborted := inc[k].aborted || !o.seen.received);
            CleanOut(cfg, s.WithOut(r.Peer(), inc[k := t]).WithP(r, q), r.Peer())
  {
    Locs();
    hide Loc;
  }

  lemma ProbeClean(cfg: Config, s: State, r: Role)
    requires Accepted(cfg) && Inv(cfg, s) && CleanInv(cfg, s)
    requires s.P(r).pc in {CProbe, SProbe} && Probeable(s.Out(r.Peer()))
    ensures CleanInv(cfg, ProbeHit(cfg, s, r))
  {
    var inc := s.Out(r.Peer());
    var k := Find(inc, Unexpected);
    var o := Probed(inc[k].len);
    var q := LocalStep(cfg, r, s.P(r), o);
    RoleOf(cfg, s, r);
    InvParts(cfg, s, r);
    hide Inv, LocalStep, ProcOk, ClientOk, ServerOk, CleanProc, StreamsOk, OutOk, CleanChannel, CleanStream, Loc,
      RecvLeads, SockClosed, Probeable;
    ReceivingClean(cfg, s, r, o);
    CleanOutRecv(cfg, s, r, o, q);
    CleanProbed(cfg, s, r, o, q);
    AssembleRecv(cfg, s, s.WithOut(r.Peer(), SetStage(inc, k, Claimed)).WithP(r, q), r, o);
  }

  lemma AssembleRecv(cfg: Config, s: State, t: State, r: Role, o: Obs)
    requires Accepted(cfg) && CleanInv(cfg, s) && Inv(cfg, s) && CleanObs(cfg, r, s.P(r), o)
    requires t.P(r.Peer()) == s.P(r.Peer()) && t.oobCS == s.oobCS && t.oobSC == s.oobSC
    requires CleanOut(cfg, t, r) && CleanOut(cfg, t, r.Peer())
    requires ReceiveResult(r, s.P(r), o)
    requires t.P(r) == LocalStep(cfg, r, s.P(r), o)
    ensures CleanInv(cfg, t)
  {
    ReceivingClean(cfg, s, r, o);
    hide LocalStep, Inv, CleanOut, CleanProc, CleanInv, Loc, SockClosed, ReceiveResult, CleanObs;
    AssembleClean(cfg, s, t, r);
  }

  lemma PostRecvClean(cfg: Config, s: State, r: Role)
    requires Accepted(cfg) && Inv(cfg, s) && CleanInv(cfg, s) && s.P(r).pc in {CPostRecv, SPostRecv}
    ensures CleanInv(cfg, PostRecvStep(cfg, s, r, Ok))
  {
    hide Inv, LocalStep, ProcOk, ClientOk, ServerOk, CleanProc, StreamsOk, OutOk, CleanChannel, CleanStream, Loc,
      RecvLeads, SockClosed;
    var inc := s.Out(r.Peer());
    var k := Find(inc, Claimed);
    var o := Post(Later);
    var q := LocalStep(cfg, r, s.P(r), o);
    InvParts(cfg, s, r);
    RoleOf(cfg, s, r);
    Locs();
    ReceivingClean(cfg, s, r, o);
    CleanOutRecv(cfg, s, r, o, q);
    CleanMatched(cfg, s, r, o, q);
    AssembleRecv(cfg, s, s.WithOut(r.Peer(), SetStage(inc, k, Matched)).WithP(r, q), r, o);
  }

  lemma WaitRecvClean(cfg: Config, s: State, r: Role, e: Event)
    requires Accepted(cfg) && Inv(cfg, s) && CleanInv(cfg, s) && s.P(r).pc in {CWaitRecv, SWaitRecv}
    requires e.Break? || e.HandlerRuns? ==> Detects(cfg, s, r)
    ensures CleanInv(cfg, WaitRecvStep(cfg, s, r, e))
  {
    if e.Complete? || e.Break? {
      RecvDoneClean(cfg, s, r, e);
    } else {
      hide Inv, CleanInv, Pass;
      PassClean(cfg, s, r, e);
    }
  }

  lemma RecvDoneClean(cfg: Config, s: State, r: Role, e: Event)
    requires Accepted(cfg) && Inv(cfg, s) && CleanInv(cfg, s) && s.P(r).pc in {CWaitRecv, SWaitRecv}
    requires e.Complete? || (e.Break? && Detects(cfg, s, r))
    ensures CleanInv(cfg, WaitRecvStep(cfg, s, r, e))
  {
    var inc := s.Out(r.Peer());
    var k := Find(inc, Matched);
    hide Inv, CleanInv, Local, Gone;
    InBuffer(cfg, s, r);
    RoleOf(cfg, s, r);
    AtMostOne(cfg, s);
    if k < |inc| && (e.Break? || inc[k].data.Some?) {
      var o := if e.Complete? then Progress(RecvDone(true, inc[k].data.value)) else Progress(RecvDone(false, []));
      ReceivedClean(cfg, s, r, o);
      var t := inc[0].(stage := Received, aborted := inc[0].aborted || e.Break?);
      assert inc[k := t] == [t];
    }
  }

  lemma ReceivedClean(cfg: Config, s: State, r: Role, o: Obs)
    requires Accepted(cfg) && Inv(cfg, s) && CleanInv(cfg, s) && |s.Out(r.Peer())| == 1
    requires if r.Client? then s.c.pc.CWaitRecv? else s.s.pc.SWaitRecv?
    requires o.Progress? && o.seen.RecvDone? && CleanObs(cfg, r, s.P(r), o)
    requires Find(s.Out(r.Peer()), Matched) == 0 && (o.seen.received ==> s.Out(r.Peer())[0].data.Some?)
    requires o.seen.received || Gone(s.P(r.Peer()))
    ensures var t := s.Out(r.Peer())[0].(stage := Received, aborted := s.Out(r.Peer())[0].aborted || !o.seen.received);
            CleanInv(cfg, Local(cfg, s.WithOut(r.Peer(), [t]), r, o))
  {
    InvParts(cfg, s, r);
    Locs();
    ReceivingClean(cfg, s, r, o);
    hide Inv, LocalStep, ProcOk, ClientOk, ServerOk, CleanProc, StreamsOk, OutOk, CleanChannel, CleanStream, Loc,
      RecvLeads, SockClosed, CleanObs;
    var inc := s.Out(r.Peer());
    var q := LocalStep(cfg, r, s.P(r), o);
    CleanOutRecv(cfg, s, r, o, q);
    CleanReceived(cfg, s, r, o, q);
    var t := inc[0].(stage := Received, aborted := inc[0].aborted || !o.seen.received);
    assert inc[0 := t] == [t];
    AssembleRecv(cfg, s, s.WithOut(r.Peer(), [t]).WithP(r, q), r, o);
  }

  // The address exchange and the barrier.

  lemma ClientExchangeClean(cfg: Config, s: State)
    requires Accepted(cfg) && Inv(cfg, s) && CleanInv(cfg, s) && (s.c.pc.CRecvLen? || s.c.pc.CRecvAddr?)
    ensures CleanInv(cfg, OobRecvStep(cfg, s, Client, if s.c.pc.CRecvLen? then HEADER else s.c.seen, Ok))
  {
    hide Inv, CleanInv, Local;
    var need := if s.c.pc.CRecvLen? then HEADER else s.c.seen;
    var st := s.oobSC;
    if st.Valid() && need <= st.Avail() {
      ClientTakes(cfg, s, st.sent[st.taken..st.taken + need]);
    }
  }

  lemma ClientTakes(cfg: Config, s: State, bytes: seq<byte>)
    requires Accepted(cfg) && Inv(cfg, s) && CleanInv(cfg, s) && (s.c.pc.CRecvLen? || s.c.pc.CRecvAddr?)
    requires |bytes| == if s.c.pc.CRecvLen? then HEADER else s.c.seen
    ensures var st := s.oobSC;
            CleanInv(cfg, Local(cfg, s.WithOob(Server, st.(taken := st.taken + |bytes|)), Client, Recvd(bytes, false)))
  {
    hide Inv, CleanInv, LocalStep, ProcOk, ClientOk, ServerOk, CleanProc, StreamsOk, ChannelOk, CleanChannel,
      CleanStream, Loc, SockClosed, CleanQuiet, Gone;
    var u := s.(oobSC := s.oobSC.(taken := s.oobSC.taken + |bytes|));
    var o := Recvd(bytes, false);
    var q := LocalStep(cfg, Client, s.c, o);
    InvParts(cfg, s, Client);
    CleanParts(cfg, s, Client);
    ClientExchangeLocal(cfg, s, o);
    TakenStreams(cfg, s, |bytes|);
    CleanOutStill(cfg, u, Client, o, q);
    CleanInStill(cfg, u, Client, o, q);
    ExchangeStreams(cfg, u, Client, q);
    AssembleStreamed(cfg, s, u.(c := q), Client);
  }

  lemma TakenStreams(cfg: Config, s: State, n: nat)
    requires CleanStream(cfg, s, Client) && CleanStream(cfg, s, Server)
    ensures var u := s.(oobSC := s.oobSC.(taken := s.oobSC.taken + n));
            CleanStream(cfg, u, Client) && CleanStream(cfg, u, Server)
  {
    hide Loc, SockClosed;
  }

  lemma ClientExchangeLocal(cfg: Config, s: State, o: Obs)
    requires Accepted(cfg) && Inv(cfg, s) && CleanInv(cfg, s) && (s.c.pc.CRecvLen? || s.c.pc.CRecvAddr?)
    requires o.Recvd? && CleanObs(cfg, Client, s.c, o)
    ensures var q := LocalStep(cfg, Client, s.c, o);
            && CleanQuiet(cfg, Client, s.c, o, q) && CleanProc(cfg, Client, q) && q.epOk == s.c.epOk
            && Loc(s.c.pc) <= Loc(q.pc) < BARRIER_SEND && q.barrier == s.c.barrier && !SockClosed(s.c) && !Gone(s.c)
  {
    Locs();
    QuietClient(cfg, s.c, o);
    CleanClient(cfg, s.c, o);
    hide Loc, CommonStep, OutOk, StreamsOk, ServerOk, CleanOut, CleanStream;
  }

  lemma ExchangeStreams(cfg: Config, s: State, r: Role, q: Proc)
    requires CleanStream(cfg, s, Client) && CleanStream(cfg, s, Server)
    requires q.barrier == s.P(r).barrier && !SockClosed(s.P(r)) && Loc(q.pc) < BARRIER_SEND
    requires r.Client? || RoleAt(r) <= Loc(s.P(r).pc) <= Loc(q.pc)
    ensures CleanStream(cfg, s.WithP(r, q), Client) && CleanStream(cfg, s.WithP(r, q), Server)
  {
    Locs();
    hide Loc;
  }

  lemma ServerExchangeClean(cfg: Config, s: State)
    requires Accepted(cfg) && Inv(cfg, s) && CleanInv(cfg, s) && (s.s.pc.SSendLen? || s.s.pc.SSendAddr?)
    ensures CleanInv(cfg, OobSendStep(cfg, s, Server,
                                      if s.s.pc.SSendLen? then Bytes(|cfg.serverAddr|, HEADER) else cfg.serverAddr, Ok))
  {
    var msg := if s.s.pc.SSendLen? then Bytes(|cfg.serverAddr|, HEADER) else cfg.serverAddr;
    var u := s.(oobSC := s.oobSC.(sent := s.oobSC.sent + msg));
    var o := Sent(|msg|);
    var q := LocalStep(cfg, Server, s.s, o);
    InvParts(cfg, s, Server);
    ServerExchangeLocal(cfg, s, o);
    ServerExchangeStreams(cfg, s, u, q);
    hide Inv, LocalStep, ProcOk, ClientOk, ServerOk, CleanProc, StreamsOk, OutOk, CleanChannel, Loc, SockClosed,
      CleanQuiet;
    CleanOutStill(cfg, u, Server, o, q);
    CleanInStill(cfg, u, Server, o, q);
    hide CleanStream;
  }

  lemma ServerExchangeLocal(cfg: Config, s: State, o: Obs)
    requires Accepted(cfg) && Inv(cfg, s) && CleanInv(cfg, s) && (s.s.pc.SSendLen? || s.s.pc.SSendAddr?)
    requires o.Sent? && CleanObs(cfg, Server, s.s, o)
    ensures var q := LocalStep(cfg, Server, s.s, o);
            && CleanQuiet(cfg, Server, s.s, o, q) && CleanProc(cfg, Server, q) && q.epOk == s.s.epOk
            && q.pc == (if s.s.pc.SSendLen? then SSendAddr else SProbe) && q.barrier == s.s.barrier && !SockClosed(s.s)
            && q.roleRet == s.s.roleRet
  {
    Locs();
    QuietServer(cfg, s.s, o);
    CleanServer(cfg, s.s, o);
    hide Loc, CommonStep, OutOk, StreamsOk, ClientOk, CleanOut, CleanStream;
  }

  lemma ServerExchangeStreams(cfg: Config, s: State, u: State, q: Proc)
    requires StreamsOk(cfg, s) && CleanStream(cfg, s, Client) && CleanStream(cfg, s, Server)
    requires s.s.pc.SSendLen? || s.s.pc.SSendAddr?
    requires var msg := if s.s.pc.SSendLen? then Bytes(|cfg.serverAddr|, HEADER) else cfg.serverAddr;
             u == s.(oobSC := s.oobSC.(sent := s.oobSC.sent + msg))
    requires q.pc == (if s.s.pc.SSendLen? then SSendAddr else SProbe) && q.barrier == s.s.barrier && !SockClosed(s.s)
    ensures CleanStream(cfg, u.(s := q), Client) && CleanStream(cfg, u.(s := q), Server)
  {
    Locs();
    hide Loc;
  }

  lemma BarrierSendClean(cfg: Config, s: State, r: Role)
    requires Accepted(cfg) && Inv(cfg, s) && CleanInv(cfg, s) && s.P(r).pc.BarrierSend?
    ensures CleanInv(cfg, OobSendStep(cfg, s, r, TOKEN, Ok))
  {
    var o := Sent(|TOKEN|);
    var u := s.WithOob(r, s.Oob(r).(sent := s.Oob(r).sent + TOKEN));
    var q := LocalStep(cfg, r, s.P(r), o);
    InvParts(cfg, s, r);
    BarrierRet(cfg, s, r);
    CommonIsLocal(cfg, r, s.P(r), o);
    BarrierSendCall(cfg, r, s.P(r), |TOKEN|);
    QuietCommon(cfg, r, s.P(r), o);
    CleanCommon(cfg, r, s.P(r), o);
    TokenStreams(cfg, s, r, u, q);
    BarrierOpen(cfg, s, r);
    BarrierEpOk(cfg, r, s.P(r));
    hide Inv, LocalStep, CommonStep, ProcOk, ClientOk, ServerOk, CleanProc, StreamsOk, OutOk, CleanChannel, Loc,
      SockClosed, CleanQuiet;
    CleanOutStill(cfg, u, r, o, q);
    CleanInStill(cfg, u, r, o, q);
    hide CleanStream;
  }

  lemma BarrierEpOk(cfg: Config, r: Role, p: Proc)
    requires InCommon(p.pc)
    ensures CommonStep(cfg, r, p, Sent(|TOKEN|)).epOk == p.epOk
    ensures forall o: Obs :: o.Recvd? ==> CommonStep(cfg, r, p, o).epOk == p.epOk
  {
  }

  lemma BarrierOpen(cfg: Config, s: State, r: Role)
    requires Inv(cfg, s) && s.P(r).pc in {BarrierSend, BarrierRecv}
    ensures !SockClosed(s.P(r)) && !Gone(s.P(r))
  {
    Locs();
    hide Loc, OutOk, StreamsOk;
  }

  lemma TokenStreams(cfg: Config, s: State, r: Role, u: State, q: Proc)
    requires StreamsOk(cfg, s) && CleanStream(cfg, s, Client) && CleanStream(cfg, s, Server)
    requires s.P(r).pc.BarrierSend? && cfg.Failure(r) == NoFailure && !SockClosed(s.P(r))
    requires u == s.WithOob(r, s.Oob(r).(sent := s.Oob(r).sent + TOKEN))
    requires q.pc.BarrierPoll? && q.barrier == s.P(r).barrier
    ensures CleanStream(cfg, u.WithP(r, q), Client) && CleanStream(cfg, u.WithP(r, q), Server)
  {
    Locs();
    hide Loc;
  }

  /** In a clean run a short token means the peer never reached its barrier. */
  lemma ShortToken(cfg: Config, s: State, r: Role, n: nat)
    requires Accepted(cfg) && Inv(cfg, s) && CleanInv(cfg, s) && s.P(r).pc.BarrierRecv?
    requires AtEof(s, r, n) && n < |TOKEN|
    ensures !Succeeds(cfg, r.Peer())
  {
    var peer := s.P(r.Peer());
    ClosedLoc(cfg, s, r.Peer());
    Locs();
    hide Loc, ProcOk, ClientOk, ServerOk, OutOk, CleanOut;
  }

  lemma ClosedLoc(cfg: Config, s: State, r: Role)
    requires Inv(cfg, s) && SockClosed(s.P(r))
    ensures Loc(s.P(r).pc) > CLOSE_SOCK && (Loc(s.P(r).pc) == KILLED ==> cfg.Failure(r) != NoFailure)
  {
    KilledLoc(s.P(r).pc);
    Locs();
    hide Loc, OutOk, StreamsOk;
  }

  lemma BarrierRecvLocal(cfg: Config, s: State, r: Role, o: Obs)
    requires Accepted(cfg) && Inv(cfg, s) && CleanInv(cfg, s) && s.P(r).pc.BarrierRecv? && o.Recvd? && !o.failed
    ensures var q := LocalStep(cfg, r, s.P(r), o);
            && CleanQuiet(cfg, r, s.P(r), o, q) && CleanProc(cfg, r, q) && q.epOk == s.P(r).epOk
            && q.roleRet == s.P(r).roleRet == Some(0) && q.pc.CloseSock? && !SockClosed(s.P(r))
            && q.barrier == Some(if |o.bytes| == |TOKEN| then 0 else 1)
  {
    InvParts(cfg, s, r);
    BarrierOpen(cfg, s, r);
    BarrierRet(cfg, s, r);
    CommonIsLocal(cfg, r, s.P(r), o);
    BarrierRecvCall(cfg, r, s.P(r), o);
    QuietCommon(cfg, r, s.P(r), o);
    CleanCommon(cfg, r, s.P(r), o);
    BarrierEpOk(cfg, r, s.P(r));
    BarrierValue(cfg, r, s.P(r), o);
    hide Inv, LocalStep, CommonStep, ProcOk, ClientOk, ServerOk, CleanProc, StreamsOk, OutOk, CleanOut, CleanStream,
      Loc, SockClosed, CleanQuiet;
  }

  lemma BarrierRecvClean(cfg: Config, s: State, r: Role, n: nat)
    requires Accepted(cfg) && Inv(cfg, s) && CleanInv(cfg, s) && s.P(r).pc.BarrierRecv?
    requires n == |TOKEN| || (n < |TOKEN| && AtEof(s, r, n))
    ensures CleanInv(cfg, TakeBytes(cfg, s, r, n))
  {
    hide AtEof, Succeeds, Inv, CleanInv, Local, LocalStep;
    var st := s.Oob(r.Peer());
    if st.Valid() && n <= st.Avail() {
      if n < |TOKEN| { ShortToken(cfg, s, r, n); }
      TokenTaken(cfg, s, r, st.sent[st.taken..st.taken + n]);
    }
  }

  lemma TokenTaken(cfg: Config, s: State, r: Role, bytes: seq<byte>)
    requires Accepted(cfg) && Inv(cfg, s) && CleanInv(cfg, s) && s.P(r).pc.BarrierRecv?
    requires |bytes| <= |TOKEN| && (|bytes| < |TOKEN| ==> !Succeeds(cfg, r.Peer()))
    ensures var st := s.Oob(r.Peer());
            CleanInv(cfg, Local(cfg, s.WithOob(r.Peer(), st.(taken := st.taken + |bytes|)), r, Recvd(bytes, false)))
  {
    hide Inv, CleanInv, LocalStep, ProcOk, ClientOk, ServerOk, CleanProc, StreamsOk, ChannelOk, CleanChannel,
      CleanStream, Loc, SockClosed, CleanQuiet, Gone, Succeeds;
    var o := Recvd(bytes, false);
    InvParts(cfg, s, r);
    CleanParts(cfg, s, r);
    BarrierOpen(cfg, s, r);
    BarrierRecvLocal(cfg, s, r, o);
    var u := s.WithOob(r.Peer(), s.Oob(r.Peer()).(taken := s.Oob(r.Peer()).taken + |bytes|));
    var q := LocalStep(cfg, r, s.P(r), o);
    BarrierStreams(cfg, s, r, |bytes|, q);
    CleanOutStill(cfg, u, r, o, q);
    CleanInStill(cfg, u, r, o, q);
    AssembleStreamed(cfg, s, u.WithP(r, q), r);
  }

  lemma BarrierValue(cfg: Config, r: Role, p: Proc, o: Obs)
    requires p.pc.BarrierRecv? && o.Recvd? && !o.failed
    ensures CommonStep(cfg, r, p, o).barrier == Some(if |o.bytes| == |TOKEN| then 0 else 1)
  {
  }

  lemma BarrierStreams(cfg: Config, s: State, r: Role, n: nat, q: Proc)
    requires CleanStream(cfg, s, Client) && CleanStream(cfg, s, Server) && s.P(r).pc.BarrierRecv?
    requires s.P(r).roleRet == Some(0) && q.roleRet == Some(0) && q.pc.CloseSock? && !SockClosed(s.P(r))
    requires q.barrier == Some(if n == |TOKEN| then 0 else 1) && n <= |TOKEN|
    requires n < |TOKEN| ==> !Succeeds(cfg, r.Peer())
    ensures var u := s.WithOob(r.Peer(), s.Oob(r.Peer()).(taken := s.Oob(r.Peer()).taken + n)).WithP(r, q);
            CleanStream(cfg, u, Client) && CleanStream(cfg, u, Server)
  {
    Locs();
    hide Loc;
  }

  lemma DeliverClean(cfg: Config, s: State, from: Role, n: nat)
    requires CleanInv(cfg, s)
    ensures CleanInv(cfg, DeliverStep(s, from, n))
  {
    hide Loc, CleanProc, CleanChannel;
  }

  // -------------------------------------------------------------------------------------------
  // All clean steps, all clean runs
  // -------------------------------------------------------------------------------------------

  lemma OpDoneClean(cfg: Config, s: State, r: Role, e: Event)
    requires Accepted(cfg) && Inv(cfg, s) && CleanInv(cfg, s) && s.P(r).pc in {SWaitFlush, WaitClose}
    requires e.Break? || e.HandlerRuns? ==> Detects(cfg, s, r)
    ensures CleanInv(cfg, WaitOpStep(cfg, s, r, e))
  {
    hide Inv, CleanInv, Local, Pass, Flushed, Loc;
    LoopLoc(cfg, s, r);
    FlushRole(cfg, s, r);
    if e.Complete? {
      if (s.P(r).ep.Closed? && s.P(r).ep.force) || Flushed(s.Out(r)) {
        QuietClean(cfg, s, r, Progress(OpDone(true)));
      }
    } else if e.Break? {
      QuietClean(cfg, s, r, Progress(OpDone(false)));
    } else {
      PassClean(cfg, s, r, e);
    }
  }

  /** Only the server flushes, on an endpoint still open; peer handling is what failure emulation sets. */
  lemma FlushRole(cfg: Config, s: State, r: Role)
    requires Inv(cfg, s)
    ensures s.P(r).pc in {SWaitFlush, SPostFlush} ==> r.Server? && s.P(r).ep.Open?
  {
    hide OutOk, StreamsOk;
  }

  lemma PostOpClean(cfg: Config, s: State, r: Role, ch: Choice)
    requires Accepted(cfg) && Inv(cfg, s) && CleanInv(cfg, s) && s.P(r).pc in {SPostFlush, PostClose} && !ch.Fail?
    ensures CleanInv(cfg, PostOpStep(cfg, s, r, ch))
  {
    PostOpLoc(cfg, s, r);
    FlushRole(cfg, s, r);
    hide Inv, CleanInv, Local, Flushed, Loc;
    if ch.Ok? {
      QuietClean(cfg, s, r, Post(Later));
    } else if ch.Null? && (Flushed(s.Out(r)) || CloseFlags(cfg.Err(r))) {
      QuietClean(cfg, s, r, Post(Now));
    }
  }

  lemma PostOpLoc(cfg: Config, s: State, r: Role)
    requires Inv(cfg, s) && s.P(r).pc in {SPostFlush, PostClose}
    ensures RoleAt(r) <= Loc(s.P(r).pc)
  {
    Locs();
    hide Loc, OutOk, StreamsOk;
  }

  lemma CallClean(cfg: Config, s: State, r: Role, o: Obs)
    requires Accepted(cfg) && Inv(cfg, s) && CleanInv(cfg, s)
    requires (s.P(r).pc in {CAllocPeer, CAllocOut, CAllocIn, CAllocStr, SAllocIn, SAllocPeer, SAllocOut, SGenAlloc}
              && o == Alloc(true))
          || (s.P(r).pc in {CCreateEp, SCreateEp} && o == Created(true))
          || (s.P(r).pc in {CloseSock, ReleaseAddr, DestroyWorker, CleanupCtx} && o == Called)
          || (s.P(r).pc.SPreProgress? && o == Progress(Nothing))
    ensures CleanInv(cfg, Local(cfg, s, r, o))
  {
    hide Inv, CleanInv, Local, Loc;
    CallLoc(cfg, s, r);
    QuietClean(cfg, s, r, o);
  }

  lemma CallLoc(cfg: Config, s: State, r: Role)
    requires Inv(cfg, s)
    requires s.P(r).pc in {CAllocPeer, CAllocOut, CAllocIn, CAllocStr, SAllocIn, SAllocPeer, SAllocOut, SGenAlloc,
                           CCreateEp, SCreateEp, CloseSock, ReleaseAddr, DestroyWorker, CleanupCtx, SPreProgress,
                           BarrierPoll}
    ensures r.Server? ==> RoleAt(r) <= Loc(s.P(r).pc)
  {
    hide Loc, OutOk, StreamsOk;
    Locs();
  }

  lemma BarrierPollClean(cfg: Config, s: State, r: Role, e: Event)
    requires Accepted(cfg) && Inv(cfg, s) && CleanInv(cfg, s) && s.P(r).pc.BarrierPoll?
    ensures CleanInv(cfg, BarrierPollStep(cfg, s, r, e))
  {
    BackgroundClean(cfg, s, r, e);
    BackgroundInv(cfg, s, r, e);
    BackgroundKeepsProcs(s, r, e);
    BackgroundKeepsOob(s, r, e);
    CallLoc(cfg, s, r);
    hide Inv, CleanInv, Local, Background, Loc;
    if PollReady(s, r) {
      QuietClean(cfg, Background(s, r, e), r, Readable(Nothing));
    }
  }

  lemma BackgroundKeepsOob(s: State, r: Role, e: Event)
    ensures Background(s, r, e).oobCS == s.oobCS && Background(s, r, e).oobSC == s.oobSC
  {
  }

  lemma ServerProbeClean(cfg: Config, s: State, e: Event)
    requires Accepted(cfg) && Inv(cfg, s) && CleanInv(cfg, s) && s.s.pc.SProbe?
    ensures CleanInv(cfg, ServerProbeStep(cfg, s, e))
  {
    NoEndpoint(cfg, s);
    BackgroundClean(cfg, s, Server, e);
    BackgroundInv(cfg, s, Server, e);
    BackgroundKeepsProcs(s, Server, e);
    hide Inv, CleanInv, Local, Background, ProbeHit, Probeable;
    var t := Pass(cfg, s, Server, e);
    if Probeable(t.cs) {
      ProbeClean(cfg, t, Server);
    }
  }

  lemma PreProgressClean(cfg: Config, s: State, e: Event)
    requires Accepted(cfg) && Inv(cfg, s) && CleanInv(cfg, s) && s.s.pc.SPreProgress?
    requires e.HandlerRuns? ==> Detects(cfg, s, Server)
    ensures CleanInv(cfg, PreProgressStep(cfg, s, e))
  {
    CallLoc(cfg, s, Server);
    if e.HandlerRuns? {
      hide Inv, CleanInv, Local, Loc;
      if s.s.ep.Open? && s.s.epOk { QuietClean(cfg, s, Server, Progress(PeerDown)); }
    } else {
      BackgroundClean(cfg, s, Server, e);
      BackgroundInv(cfg, s, Server, e);
      BackgroundKeepsProcs(s, Server, e);
      hide Inv, CleanInv, Local, Background;
      CallClean(cfg, Background(s, Server, e), Server, Progress(Nothing));
    }
  }

  /** The result a turned-down call hands to its process. */
  function TurnedDown(pc: Pc): Obs {
    if pc in {CCreateEp, SCreateEp} then Created(false) else Post(Refused)
  }

  lemma TurnedDownStep(cfg: Config, s: State, r: Role)
    requires TurnsDown(cfg, s, r)
    ensures Act1(cfg, s, r, Fail) == Local(cfg, s, r, TurnedDown(s.P(r).pc))
  {
    hide LocalStep, Gone, Local;
  }

  lemma TurnedDownObs(cfg: Config, s: State, r: Role)
    requires Inv(cfg, s) && CleanInv(cfg, s) && TurnsDown(cfg, s, r)
    ensures var o := TurnedDown(s.P(r).pc);
            CleanObs(cfg, r, s.P(r), o) && Bad(o) && QuietObs(s.P(r), o) && NoIo(o) && Gone(s.P(r.Peer()))
  {
    hide Inv, CleanInv, Gone;
    RoleOf(cfg, s, r);
    if s.P(r).pc.SPostRecv? { GoneBeforeReceive(cfg, s); }
  }

  lemma TurnedDownClean(cfg: Config, s: State, r: Role)
    requires Accepted(cfg) && Inv(cfg, s) && CleanInv(cfg, s) && TurnsDown(cfg, s, r)
    ensures CleanInv(cfg, Act1(cfg, s, r, Fail))
  {
    hide Inv, CleanInv, Local, Loc, Act1, CleanObs, QuietObs;
    TurnedDownLoc(cfg, s, r);
    TurnedDownStep(cfg, s, r);
    TurnedDownObs(cfg, s, r);
    QuietClean(cfg, s, r, TurnedDown(s.P(r).pc));
  }

  lemma TurnedDownLoc(cfg: Config, s: State, r: Role)
    requires Inv(cfg, s) && TurnsDown(cfg, s, r)
    ensures RoleAt(r) <= Loc(s.P(r).pc)
  {
    Locs();
    hide Loc, OutOk, StreamsOk;
  }

  /** Before the server has received the client's address, only the client's own kill can remove it. */
  lemma GoneBeforeReceive(cfg: Config, s: State)
    requires Inv(cfg, s) && CleanInv(cfg, s) && s.s.pc.SPostRecv? && Gone(s.c)
    ensures cfg.clientErr.failure == RecvFailure
  {
    KilledLoc(s.c.pc);
    Locs();
    hide Loc, StreamsOk, CleanStream, ServerOk, CleanProc;
  }

  lemma ActClean(cfg: Config, s: State, r: Role, ch: Choice)
    requires Accepted(cfg) && Inv(cfg, s) && CleanInv(cfg, s) && IsClean(cfg, s, Act(r, ch))
    ensures CleanInv(cfg, Act1(cfg, s, r, ch))
  {
    hide Inv, CleanInv, Local, Pass, Background, TakeBytes, OobSendStep, PostSendStep, PostRecvStep, WaitSendStep,
      WaitRecvStep, WaitOpStep, PostOpStep, ServerProbeStep, ProbeHit, BarrierPollStep, PreProgressStep, Probeable,
      Detects, AtEof;
    if ch.Fail? {
      TurnedDownClean(cfg, s, r);
      return;
    }
    RoleOf(cfg, s, r);
    var e := if ch.Ev? then ch.e else Idle;
    match s.P(r).pc
    case CRecvLen | CRecvAddr => ClientExchangeClean(cfg, s);
    case SSendLen | SSendAddr => ServerExchangeStepClean(cfg, s, ch);
    case CAllocPeer | CAllocOut | CAllocIn | CAllocStr
      | SAllocIn | SAllocPeer | SAllocOut | SGenAlloc => CallClean(cfg, s, r, Alloc(true));
    case CCreateEp | SCreateEp => CallClean(cfg, s, r, Created(true));
    case CPostSend | SPostSend => PostSendClean(cfg, s, r, ch);
    case CPostRecv | SPostRecv => PostRecvStepClean(cfg, s, r, ch);
    case CWaitSend | SWaitSend => WaitSendClean(cfg, s, r, e);
    case CWaitRecv | SWaitRecv => WaitRecvClean(cfg, s, r, e);
    case CProbe =>
      if Probeable(s.sc) { ProbeClean(cfg, s, Client); } else { PassClean(cfg, s, Client, e); }
    case SProbe => ServerProbeClean(cfg, s, e);
    case SPreProgress => PreProgressClean(cfg, s, e);
    case SSpinFailed | SSpinKeepalive => PassClean(cfg, s, r, e);
    case SPostFlush | PostClose => PostOpClean(cfg, s, r, ch);
    case SWaitFlush | WaitClose => OpDoneClean(cfg, s, r, e);
    case BarrierSend => BarrierSendStepClean(cfg, s, r, ch);
    case BarrierPoll => BarrierPollClean(cfg, s, r, e);
    case BarrierRecv =>
      BarrierRecvClean(cfg, s, r, |TOKEN|);
      if ch.Short? && ch.n < |TOKEN| { BarrierRecvClean(cfg, s, r, ch.n); }
    case CloseSock | ReleaseAddr | DestroyWorker | CleanupCtx => CallClean(cfg, s, r, Called);
    case Done | Killed =>
  }

  lemma ServerExchangeStepClean(cfg: Config, s: State, ch: Choice)
    requires Accepted(cfg) && Inv(cfg, s) && CleanInv(cfg, s) && (s.s.pc.SSendLen? || s.s.pc.SSendAddr?)
    requires !ch.Fail? && !ch.Short?
    ensures CleanInv(cfg, OobSendStep(cfg, s, Server,
                                      if s.s.pc.SSendLen? then Bytes(|cfg.serverAddr|, HEADER) else cfg.serverAddr, ch))
  {
    hide Inv, CleanInv, Local;
    ServerExchangeClean(cfg, s);
  }

  lemma BarrierSendStepClean(cfg: Config, s: State, r: Role, ch: Choice)
    requires Accepted(cfg) && Inv(cfg, s) && CleanInv(cfg, s) && s.P(r).pc.BarrierSend? && !ch.Fail? && !ch.Short?
    ensures CleanInv(cfg, OobSendStep(cfg, s, r, TOKEN, ch))
  {
    hide Inv, CleanInv, Local;
    BarrierSendClean(cfg, s, r);
  }

  lemma PostRecvStepClean(cfg: Config, s: State, r: Role, ch: Choice)
    requires Accepted(cfg) && Inv(cfg, s) && CleanInv(cfg, s) && s.P(r).pc in {CPostRecv, SPostRecv} && !ch.Fail?
    ensures CleanInv(cfg, PostRecvStep(cfg, s, r, ch))
  {
    hide Inv, CleanInv, Local;
    PostRecvClean(cfg, s, r);
  }

  lemma NextClean(cfg: Config, s: State, a: Action)
    requires Accepted(cfg) && Inv(cfg, s) && CleanInv(cfg, s) && IsClean(cfg, s, a)
    ensures CleanInv(cfg, Next(cfg, s, a))
  {
    hide Inv, CleanInv, Act1, DeliverStep, IsClean;
    match a
    case Deliver(from, n) => DeliverClean(cfg, s, from, n);
    case Act(r, ch) => ActClean(cfg, s, r, ch);
  }

  lemma {:induction false} CleanRunInv(cfg: Config, run: seq<State>, acts: seq<Action>, i: nat)
    requires Accepted(cfg) && IsCleanRun(cfg, run, acts) && i < |run|
    ensures Inv(cfg, run[i]) && CleanInv(cfg, run[i])
  {
    hide Inv, CleanInv, Next, IsClean;
    RunInv(cfg, run, acts, i);
    if i == 0 {
      InitClean(cfg);
    } else {
      CleanRunInv(cfg, run, acts, i - 1);
      NextClean(cfg, run[i - 1], acts[i - 1]);
    }
  }

  /** Every state that a clean run reaches satisfies both invariants. */
  lemma CleanReachableInv(cfg: Config, s: State)
    requires Accepted(cfg) && CleanReachable(cfg, s)
    ensures Inv(cfg, s) && CleanInv(cfg, s)
  {
    var run, acts :| IsCleanRun(cfg, run, acts) && run[|acts|] == s;
    CleanRunInv(cfg, run, acts, |acts|);
  }
}
