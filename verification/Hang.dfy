/** The configurations that are not live really hang, and exactly those. */
module Hang {
  import opened Wire
  import opened Roles
  import opened Machine
  import opened Safety
  import opened Measure
  import opened Clean
  import opened Liveness

  // -------------------------------------------------------------------------------------------
  // What a clean step hands to the process that makes it
  // -------------------------------------------------------------------------------------------

  /** Why a result was possible. */
  predicate Cause(cfg: Config, s: State, r: Role, o: Obs) {
    match o
    case Created(_) | Post(_) => Bad(o) ==> Gone(s.P(r.Peer())) && cfg.Err(r).mode == HandlePeer
    case Progress(seen) =>
      && (Bad(o) ==> Detects(cfg, s, r))
      && (seen == SendDone(true) ==> SendCanComplete(s, r))
    case Readable(_) => PollReady(s, r)
    case _ => true
  }

  predicate Handed(cfg: Config, s: State, t: State, r: Role, o: Obs) {
    && t.P(r.Peer()) == s.P(r.Peer())
    && (t.P(r) == s.P(r)
        || (t.P(r) == LocalStep(cfg, r, s.P(r), o) && CleanObs(cfg, r, s.P(r), o) && Cause(cfg, s, r, o)))
  }

  lemma PassHands(cfg: Config, s: State, r: Role, e: Event)
    requires e.HandlerRuns? ==> Detects(cfg, s, r)
    ensures Handed(cfg, s, Pass(cfg, s, r, e), r, Progress(PeerDown))
  {
    BackgroundKeepsProcs(s, r, e);
    hide LocalStep, Background;
  }

  lemma RecvHands(cfg: Config, s: State, r: Role, ch: Choice) returns (o: Obs)
    requires s.P(r).pc in {CRecvLen, CRecvAddr, BarrierRecv} && !ch.Fail? && (ch.Short? ==> s.P(r).pc.BarrierRecv?)
    ensures var need := if s.P(r).pc.CRecvLen? then HEADER else if s.P(r).pc.CRecvAddr? then s.P(r).seen else |TOKEN|;
            Handed(cfg, s, OobRecvStep(cfg, s, r, need, ch), r, o)
  {
    hide LocalStep;
    var need := if s.P(r).pc.CRecvLen? then HEADER else if s.P(r).pc.CRecvAddr? then s.P(r).seen else |TOKEN|;
    var n := if ch.Short? then ch.n else need;
    var st := s.Oob(r.Peer());
    o := if st.Valid() && n <= st.Avail() then Recvd(st.sent[st.taken..st.taken + n], false) else Called;
  }

  lemma SendHands(cfg: Config, s: State, r: Role, msg: seq<byte>, ch: Choice) returns (o: Obs)
    requires s.P(r).pc in {SSendLen, SSendAddr, BarrierSend} && !ch.Fail? && !ch.Short?
    requires s.P(r).pc.SSendLen? ==> |msg| == HEADER
    requires s.P(r).pc.SSendAddr? ==> msg == cfg.serverAddr
    ensures Handed(cfg, s, OobSendStep(cfg, s, r, msg, ch), r, o)
  {
    hide LocalStep;
    o := Sent(|msg|);
  }

  lemma WaitSendHands(cfg: Config, s: State, r: Role, e: Event) returns (o: Obs)
    requires e.Break? || e.HandlerRuns? ==> Detects(cfg, s, r)
    ensures Handed(cfg, s, WaitSendStep(cfg, s, r, e), r, o)
  {
    PassHands(cfg, s, r, e);
    hide LocalStep, Pass;
    o := if e.Complete? then Progress(SendDone(true))
         else if e.Break? then Progress(SendDone(false)) else Progress(PeerDown);
  }

  lemma WaitRecvHands(cfg: Config, s: State, r: Role, e: Event) returns (o: Obs)
    requires e.Break? || e.HandlerRuns? ==> Detects(cfg, s, r)
    ensures Handed(cfg, s, WaitRecvStep(cfg, s, r, e), r, o)
  {
    PassHands(cfg, s, r, e);
    hide LocalStep, Pass;
    var inc := s.Out(r.Peer());
    var k := Find(inc, Matched);
    o := if e.Complete? then Progress(RecvDone(true, if k < |inc| && inc[k].data.Some? then inc[k].data.value else []))
         else if e.Break? then Progress(RecvDone(false, [])) else Progress(PeerDown);
  }

  lemma WaitOpHands(cfg: Config, s: State, r: Role, e: Event) returns (o: Obs)
    requires e.Break? || e.HandlerRuns? ==> Detects(cfg, s, r)
    ensures Handed(cfg, s, WaitOpStep(cfg, s, r, e), r, o)
  {
    PassHands(cfg, s, r, e);
    hide LocalStep, Pass, Flushed;
    o := if e.Complete? then Progress(OpDone(true))
         else if e.Break? then Progress(OpDone(false)) else Progress(PeerDown);
  }

  lemma PollHands(cfg: Config, s: State, r: Role, e: Event)
    ensures Handed(cfg, s, BarrierPollStep(cfg, s, r, e), r, Readable(Nothing))
  {
    BackgroundKeepsProcs(s, r, e);
    hide LocalStep, Background;
  }

  lemma PreProgressHands(cfg: Config, s: State, e: Event) returns (o: Obs)
    requires e.HandlerRuns? ==> Detects(cfg, s, Server)
    ensures Handed(cfg, s, PreProgressStep(cfg, s, e), Server, o)
  {
    BackgroundKeepsProcs(s, Server, e);
    hide LocalStep, Background;
    o := if e.HandlerRuns? then Progress(PeerDown) else Progress(Nothing);
  }

  lemma CallHands(cfg: Config, s: State, r: Role, o: Obs)
    requires o in {Alloc(true), Created(true), Called, Post(Later), Post(Now)} || o.Probed?
    ensures Handed(cfg, s, Local(cfg, s, r, o), r, o) && Handed(cfg, s, s, r, o)
  {
    hide LocalStep;
  }

  lemma PostSendHands(cfg: Config, s: State, r: Role, ch: Choice) returns (o: Obs)
    requires !ch.Fail?
    ensures Handed(cfg, s, PostSendStep(cfg, s, r, ch), r, o)
    ensures ch.Request? ==> o == Post(Later)
    ensures ch.Null? ==> o == Post(Now)
  {
    hide LocalStep;
    o := if ch.Null? then Post(Now) else Post(Later);
  }

  lemma PostRecvHands(cfg: Config, s: State, r: Role, ch: Choice)
    requires !ch.Fail?
    ensures Handed(cfg, s, PostRecvStep(cfg, s, r, ch), r, Post(Later))
  {
    hide LocalStep;
  }

  lemma ClientProbeHands(cfg: Config, s: State, e: Event) returns (o: Obs)
    requires e.HandlerRuns? ==> Detects(cfg, s, Client)
    ensures Handed(cfg, s, ClientProbeStep(cfg, s, e), Client, o)
  {
    PassHands(cfg, s, Client, e);
    hide LocalStep, Pass;
    o := if Probeable(s.sc) then Probed(s.sc[Find(s.sc, Unexpected)].len) else Progress(PeerDown);
  }

  lemma TurnedDownHands(cfg: Config, s: State, r: Role) returns (o: Obs)
    requires Accepted(cfg) && Inv(cfg, s) && CleanInv(cfg, s) && TurnsDown(cfg, s, r)
    ensures Handed(cfg, s, Act1(cfg, s, r, Fail), r, o) && Bad(o)
  {
    hide Inv, CleanInv, LocalStep, Act1, Gone, CleanObs, QuietObs;
    TurnedDownStep(cfg, s, r);
    TurnedDownObs(cfg, s, r);
    o := TurnedDown(s.P(r).pc);
  }

  lemma ActHands(cfg: Config, s: State, r: Role, ch: Choice) returns (o: Obs)
    requires Accepted(cfg) && Inv(cfg, s) && CleanInv(cfg, s) && IsClean(cfg, s, Act(r, ch))
    ensures Handed(cfg, s, Act1(cfg, s, r, ch), r, o)
    ensures s.P(r).pc in {CPostSend, SPostSend} && ch.Request? ==> o == Post(Later)
    ensures s.P(r).pc in {CPostSend, SPostSend} && ch.Null? ==> o == Post(Now)
  {
    hide Inv, CleanInv, Local, LocalStep, Handed, OobRecvStep, OobSendStep, WaitSendStep, WaitRecvStep, WaitOpStep,
      BarrierPollStep, PreProgressStep, PostSendStep, PostRecvStep, ClientProbeStep, ServerProbeStep, Pass, Flushed,
      Detects, AtEof;
    RoleOf(cfg, s, r);
    var e := if ch.Ev? then ch.e else Idle;
    o := Called;
    CallHands(cfg, s, r, Called);
    if ch.Fail? {
      o := TurnedDownHands(cfg, s, r);
      return;
    }
    match s.P(r).pc
    case CRecvLen | CRecvAddr | BarrierRecv => o := RecvHands(cfg, s, r, ch);
    case SSendLen => o := SendHands(cfg, s, r, Bytes(|cfg.serverAddr|, HEADER), ch);
    case SSendAddr => o := SendHands(cfg, s, r, cfg.serverAddr, ch);
    case BarrierSend => o := SendHands(cfg, s, r, TOKEN, ch);
    case CAllocPeer | CAllocOut | CAllocIn | CAllocStr
      | SAllocIn | SAllocPeer | SAllocOut | SGenAlloc => o := Alloc(true); CallHands(cfg, s, r, o);
    case CCreateEp | SCreateEp => o := Created(true); CallHands(cfg, s, r, o);
    case CPostSend | SPostSend => o := PostSendHands(cfg, s, r, ch);
    case CPostRecv | SPostRecv => o := Post(Later); PostRecvHands(cfg, s, r, ch);
    case CWaitSend | SWaitSend => o := WaitSendHands(cfg, s, r, e);
    case CWaitRecv | SWaitRecv => o := WaitRecvHands(cfg, s, r, e);
    case CProbe => o := ClientProbeHands(cfg, s, e);
    case SProbe => o := ServerProbeHands(cfg, s, e);
    case SPreProgress => o := PreProgressHands(cfg, s, e);
    case SSpinFailed | SSpinKeepalive => o := Progress(PeerDown); PassHands(cfg, s, r, e);
    case SPostFlush | PostClose => o := if ch.Null? then Post(Now) else Post(Later); CallHands(cfg, s, r, o);
    case SWaitFlush | WaitClose => o := WaitOpHands(cfg, s, r, e);
    case BarrierPoll => o := Readable(Nothing); PollHands(cfg, s, r, e);
    case CloseSock | ReleaseAddr | DestroyWorker | CleanupCtx => CallHands(cfg, s, r, Called);
    case Done | Killed =>
  }

  lemma ServerProbeHands(cfg: Config, s: State, e: Event) returns (o: Obs)
    requires Inv(cfg, s) && s.s.pc.SProbe?
    ensures Handed(cfg, s, ServerProbeStep(cfg, s, e), Server, o)
  {
    hide Inv, LocalStep, Background, Find;
    NoEndpoint(cfg, s);
    BackgroundKeepsProcs(s, Server, e);
    var t := Pass(cfg, s, Server, e);
    o := if Probeable(t.cs) then Probed(t.cs[Find(t.cs, Unexpected)].len) else Called;
  }

  // -------------------------------------------------------------------------------------------
  // First family: the server never sends, the client without failure handling waits for ever
  // -------------------------------------------------------------------------------------------

  lemma SilentNeverFinishes(cfg: Config, s: State)
    requires Accepted(cfg) && Inv(cfg, s) && CleanInv(cfg, s) && cfg.clientErr.failure == NoFailure
    requires cfg.serverErr.failure == SendFailure || ToInt32(cfg.serverLen) < 0
    ensures !Finished(s)
  {
    ClientPc(cfg, s);
    Locs();
    hide Loc, StreamsOk, CleanStream, ClientOk;
  }

  // -------------------------------------------------------------------------------------------
  // Second family: a keepalive server waits for a client that waits at its barrier
  // -------------------------------------------------------------------------------------------

  predicate KeepaliveConfig(cfg: Config) {
    cfg.clientErr.failure == NoFailure && cfg.serverErr.failure == KeepaliveFailure && ToInt32(cfg.serverLen) >= 0
  }

  predicate BothWait(s: State) {
    Loc(s.c.pc) <= BARRIER_POLL && Loc(s.s.pc) <= S_SPIN_KEEPALIVE
  }

  lemma PatientClient(cfg: Config, p: Proc, o: Obs)
    requires Accepted(cfg) && KeepaliveConfig(cfg) && ClientOk(cfg, p) && CleanProc(cfg, Client, p)
    requires CleanObs(cfg, Client, p, o) && Loc(p.pc) <= BARRIER_POLL && !(p.pc.BarrierPoll? && o.Readable?)
    ensures Loc(ClientStep(cfg, p, o).pc) <= BARRIER_POLL
  {
    Locs();
    hide ResourcesOk, Delivered, Loc, Printf, ServerPayload, Frame, Zeros, CopyPayload, Bytes, Value, FirstNul;
  }

  lemma PatientServer(cfg: Config, p: Proc, o: Obs)
    requires Accepted(cfg) && KeepaliveConfig(cfg) && ServerOk(cfg, p) && CleanProc(cfg, Server, p)
    requires CleanObs(cfg, Server, p, o) && Loc(p.pc) <= S_SPIN_KEEPALIVE && p.epOk && !Bad(o)
    ensures Loc(ServerStep(cfg, p, o).pc) <= S_SPIN_KEEPALIVE
  {
    Locs();
    hide Loc, CommonStep;
  }

  /** While the server has neither sent a token nor closed, the client's poll stays unanswered. */
  lemma PollUnanswered(cfg: Config, s: State)
    requires Accepted(cfg) && KeepaliveConfig(cfg) && Inv(cfg, s) && CleanInv(cfg, s) && BothWait(s)
         && s.c.pc.BarrierPoll?
    ensures !PollReady(s, Client)
  {
    if SockClosed(s.s) { ClosedLoc(cfg, s, Server); }
    Locs();
    hide Loc, ProcOk, ClientOk, ServerOk, OutOk, CleanProc, CleanOut;
  }

  lemma BothWaitClient(cfg: Config, s: State, ch: Choice)
    requires Accepted(cfg) && KeepaliveConfig(cfg) && Inv(cfg, s) && CleanInv(cfg, s)
         && IsClean(cfg, s, Act(Client, ch))
    requires BothWait(s)
    ensures BothWait(Act1(cfg, s, Client, ch))
  {
    hide Loc, Inv, CleanInv, ClientStep, Act1, CleanProc, ClientOk, OutOk, StreamsOk, CleanObs, IsClean, PollReady;
    InvParts(cfg, s, Client);
    CleanProcs(cfg, s);
    if s.c.pc.BarrierPoll? { PollUnanswered(cfg, s); }
    Locs();
    var o := ActHands(cfg, s, Client, ch);
    if Act1(cfg, s, Client, ch).c != s.c { PatientClient(cfg, s.c, o); }
  }

  lemma BothWaitServer(cfg: Config, s: State, ch: Choice)
    requires Accepted(cfg) && KeepaliveConfig(cfg) && Inv(cfg, s) && CleanInv(cfg, s)
         && IsClean(cfg, s, Act(Server, ch))
    requires BothWait(s)
    ensures BothWait(Act1(cfg, s, Server, ch))
  {
    InvParts(cfg, s, Server);
    CleanProcs(cfg, s);
    NotOkGone(cfg, s, Server);
    Locs();
    hide Loc, Inv, CleanInv, ServerStep, Act1, CleanProc, ServerOk, OutOk, StreamsOk, CleanObs, IsClean;
    var o := ActHands(cfg, s, Server, ch);
    if Act1(cfg, s, Server, ch).s != s.s { PatientServer(cfg, s.s, o); }
  }

  lemma BothWaitStep(cfg: Config, s: State, a: Action)
    requires Accepted(cfg) && KeepaliveConfig(cfg) && Inv(cfg, s) && CleanInv(cfg, s) && IsClean(cfg, s, a)
         && BothWait(s)
    ensures BothWait(Next(cfg, s, a))
  {
    hide Loc, Inv, CleanInv, IsClean, Act1;
    if a.Act? {
      if a.r.Client? { BothWaitClient(cfg, s, a.ch); } else { BothWaitServer(cfg, s, a.ch); }
    }
  }

  lemma CleanProcs(cfg: Config, s: State)
    requires CleanInv(cfg, s)
    ensures CleanProc(cfg, Client, s.c) && CleanProc(cfg, Server, s.s)
  {
    hide CleanProc, CleanOut, CleanStream, Loc;
  }

  // -------------------------------------------------------------------------------------------
  // Third family: the client dies before it matches a rendezvous send of a server that cannot detect it
  // -------------------------------------------------------------------------------------------

  predicate RendezvousConfig(cfg: Config) {
    && (cfg.clientErr.failure == RecvFailure || cfg.clientErr.failure == KeepaliveFailure)
    && cfg.serverErr.failure == NoFailure && ToInt32(cfg.serverLen) >= 0
  }

  /** The environment answers the server's send with a rendezvous. */
  predicate Slow(s: State, a: Action) {
    a.Act? && a.r.Server? && s.s.pc.SPostSend? ==> a.ch == Request(RndvGet)
  }

  /** Last location of the client before it dies. */
  function LastAt(cfg: Config): nat {
    if cfg.clientErr.failure == RecvFailure then C_WAIT_SEND else C_PROBE
  }

  /** The client has not come to its probe's answer, or died; the server is not past its send. */
  predicate StillSending(cfg: Config, s: State) {
    && (Loc(s.c.pc) <= LastAt(cfg) || s.c.pc.Killed?)
    && Loc(s.s.pc) <= S_WAIT_SEND
  }

  predicate SendHangs(cfg: Config, s: State) {
    StillSending(cfg, s) && Unread(s.sc)
  }

  lemma DyingClient(cfg: Config, p: Proc, o: Obs)
    requires Accepted(cfg) && RendezvousConfig(cfg) && ClientOk(cfg, p) && CleanProc(cfg, Client, p)
    requires CleanObs(cfg, Client, p, o) && (Loc(p.pc) <= LastAt(cfg) || p.pc.Killed?) && p.epOk && !Bad(o)
    ensures var q := ClientStep(cfg, p, o); Loc(q.pc) <= LastAt(cfg) || q.pc.Killed?
  {
    Locs();
    hide Loc, Printf, ServerPayload, Frame, Zeros, CopyPayload, Bytes, Value, FirstNul;
  }

  lemma PendingServer(cfg: Config, p: Proc, o: Obs)
    requires Accepted(cfg) && RendezvousConfig(cfg) && ServerOk(cfg, p) && CleanProc(cfg, Server, p)
    requires CleanObs(cfg, Server, p, o) && Loc(p.pc) <= S_WAIT_SEND && !Bad(o)
    requires o != Progress(SendDone(true)) && (p.pc.SPostSend? && o.Post? ==> o == Post(Later))
    ensures Loc(ServerStep(cfg, p, o).pc) <= S_WAIT_SEND
  {
    Locs();
    hide Loc, CommonStep;
  }

  /** The server's message is never matched, hence never read. */
  lemma NeverMatched(cfg: Config, s: State)
    requires Accepted(cfg) && RendezvousConfig(cfg) && Inv(cfg, s) && SendHangs(cfg, s)
    ensures |s.sc| <= 1 && (s.sc != [] ==> !s.sc[0].stage.Matched?)
    ensures s.c.pc !in {CPostRecv, CWaitRecv}
    ensures s.s.pc.SPostSend? ==> s.sc == []
    ensures !SendCanComplete(s, Server)
  {
    Locs();
    hide Loc, ProcOk, ClientOk, ServerOk, StreamsOk;
  }

  predicate Unread(ts: seq<Transfer>) {
    ts != [] ==> ts[0].data.None?
  }

  lemma BackgroundData(s: State, r: Role, e: Event)
    requires |s.sc| <= 1 && Unread(s.sc) && (s.sc != [] ==> !s.sc[0].stage.Matched?)
    ensures var t := Background(s, r, e);
            |t.sc| <= 1 && Unread(t.sc) && (t.sc != [] ==> !t.sc[0].stage.Matched?)
  {
  }

  lemma PassData(cfg: Config, s: State, r: Role, e: Event)
    requires |s.sc| <= 1 && Unread(s.sc) && (s.sc != [] ==> !s.sc[0].stage.Matched?)
    ensures Unread(Pass(cfg, s, r, e).sc)
  {
    BackgroundData(s, r, e);
    LocalKeepsOut(cfg, s, r);
    hide Local, Background;
  }

  /** Waits and posts of both roles, other than a receive of the client. */
  lemma CallData(cfg: Config, s: State, r: Role, ch: Choice, e: Event)
    requires |s.sc| <= 1 && Unread(s.sc) && (s.sc != [] ==> !s.sc[0].stage.Matched?)
    requires r.Server? && s.s.pc.SPostSend? ==> s.sc == []
    ensures Unread(WaitSendStep(cfg, s, r, e).sc) && Unread(WaitOpStep(cfg, s, r, e).sc)
    ensures r.Server? ==> Unread(WaitRecvStep(cfg, s, r, e).sc) && Unread(PostRecvStep(cfg, s, r, ch).sc)
    ensures r.Client? || (s.sc == [] && ch == Request(RndvGet)) ==> Unread(PostSendStep(cfg, s, r, ch).sc)
    ensures Unread(BarrierPollStep(cfg, s, r, e).sc)
  {
    hide Local, Pass, Background, Flushed;
    PassData(cfg, s, r, e);
    BackgroundData(s, r, e);
    LocalKeepsOut(cfg, s, r);
  }

  lemma ProbeData(cfg: Config, s: State, e: Event)
    requires |s.sc| <= 1 && Unread(s.sc) && (s.sc != [] ==> !s.sc[0].stage.Matched?)
    ensures Unread(ClientProbeStep(cfg, s, e).sc) && Unread(ServerProbeStep(cfg, s, e).sc)
    ensures Unread(PreProgressStep(cfg, s, e).sc)
  {
    PassData(cfg, s, Client, e);
    PassData(cfg, s, Server, e);
    BackgroundData(s, Server, e);
    LocalKeepsOut(cfg, s, Client);
    LocalKeepsOut(cfg, s, Server);
    hide Local, Pass, Background;
  }

  lemma IoData(cfg: Config, s: State, r: Role, need: nat, msg: seq<byte>, ch: Choice)
    ensures OobRecvStep(cfg, s, r, need, ch).sc == s.sc && OobSendStep(cfg, s, r, msg, ch).sc == s.sc
  {
    LocalKeepsOut(cfg, s, r);
    hide Local;
  }

  lemma DataStays(cfg: Config, s: State, r: Role, ch: Choice)
    requires Inv(cfg, s) && |s.sc| <= 1 && Unread(s.sc) && (s.sc != [] ==> !s.sc[0].stage.Matched?)
    requires s.c.pc !in {CPostRecv, CWaitRecv} && (s.s.pc.SPostSend? ==> s.sc == [])
    requires Slow(s, Act(r, ch))
    ensures Unread(Act1(cfg, s, r, ch).sc)
  {
    hide Inv, Local, Pass, Background, WaitSendStep, WaitOpStep, WaitRecvStep, PostRecvStep, PostSendStep,
      BarrierPollStep, ClientProbeStep, ServerProbeStep, PreProgressStep, OobRecvStep, OobSendStep, Flushed, Unread;
    RoleOf(cfg, s, r);
    PostRole(cfg, s, r);
    LocalKeepsOut(cfg, s, r);
    var e := if ch.Ev? then ch.e else Idle;
    match s.P(r).pc
    case CRecvLen => IoData(cfg, s, r, HEADER, [], ch);
    case CRecvAddr => IoData(cfg, s, r, s.P(r).seen, [], ch);
    case BarrierRecv => IoData(cfg, s, r, |TOKEN|, [], ch);
    case SSendLen => IoData(cfg, s, r, 0, Bytes(|cfg.serverAddr|, HEADER), ch);
    case SSendAddr => IoData(cfg, s, r, 0, cfg.serverAddr, ch);
    case BarrierSend => IoData(cfg, s, r, 0, TOKEN, ch);
    case CProbe | SProbe | SPreProgress => ProbeData(cfg, s, e);
    case SSpinFailed | SSpinKeepalive => PassData(cfg, s, r, e);
    case CPostSend | SPostSend | CPostRecv | SPostRecv | CWaitSend | SWaitSend | CWaitRecv | SWaitRecv
      | SWaitFlush | WaitClose | BarrierPoll => CallData(cfg, s, r, ch, e);
    case _ =>
  }

  lemma SendHangsClient(cfg: Config, s: State, ch: Choice)
    requires Accepted(cfg) && RendezvousConfig(cfg) && Inv(cfg, s) && CleanInv(cfg, s)
         && IsClean(cfg, s, Act(Client, ch))
    requires SendHangs(cfg, s)
    ensures StillSending(cfg, Act1(cfg, s, Client, ch))
  {
    InvParts(cfg, s, Client);
    NotOkGone(cfg, s, Client);
    CleanProcs(cfg, s);
    Locs();
    hide Loc, Inv, CleanInv, ClientStep, Act1, CleanProc, ClientOk, OutOk, StreamsOk, CleanObs, IsClean, Unread;
    var o := ActHands(cfg, s, Client, ch);
    if Act1(cfg, s, Client, ch).c != s.c { DyingClient(cfg, s.c, o); }
  }

  lemma SendHangsServer(cfg: Config, s: State, ch: Choice)
    requires Accepted(cfg) && RendezvousConfig(cfg) && Inv(cfg, s) && CleanInv(cfg, s)
         && IsClean(cfg, s, Act(Server, ch))
    requires SendHangs(cfg, s) && Slow(s, Act(Server, ch))
    ensures StillSending(cfg, Act1(cfg, s, Server, ch))
  {
    NeverMatched(cfg, s);
    InvParts(cfg, s, Server);
    CleanProcs(cfg, s);
    Locs();
    hide Loc, Inv, CleanInv, ServerStep, Act1, CleanProc, ServerOk, OutOk, StreamsOk, CleanObs, IsClean,
      SendCanComplete;
    var o := ActHands(cfg, s, Server, ch);
    if Act1(cfg, s, Server, ch).s != s.s { PendingServer(cfg, s.s, o); }
  }

  lemma SendHangsDeliver(cfg: Config, s: State, from: Role, n: nat)
    requires SendHangs(cfg, s)
    ensures SendHangs(cfg, DeliverStep(s, from, n))
  {
    hide Loc, LastAt, Unread;
  }

  lemma SendHangsStep(cfg: Config, s: State, a: Action)
    requires Accepted(cfg) && RendezvousConfig(cfg) && Inv(cfg, s) && CleanInv(cfg, s) && IsClean(cfg, s, a)
    requires Slow(s, a) && SendHangs(cfg, s)
    ensures SendHangs(cfg, Next(cfg, s, a))
  {
    hide StillSending, Inv, CleanInv, IsClean, Act1, DeliverStep, Unread, SendCanComplete, Slow, RendezvousConfig;
    match a
    case Deliver(from, n) => SendHangsDeliver(cfg, s, from, n);
    case Act(r, ch) =>
      NeverMatched(cfg, s);
      DataStays(cfg, s, r, ch);
      if r.Client? { SendHangsClient(cfg, s, ch); } else { SendHangsServer(cfg, s, ch); }
  }

  // -------------------------------------------------------------------------------------------
  // Runs that cannot be continued
  // -------------------------------------------------------------------------------------------

  /** A clean run in which the server's send, if it happens, is a rendezvous. */
  predicate IsSlowRun(cfg: Config, run: seq<State>, acts: seq<Action>) {
    && IsCleanRun(cfg, run, acts)
    && forall i {:trigger acts[i]} :: 0 <= i < |acts| ==> Slow(run[i], acts[i])
  }

  lemma Extend(cfg: Config, run: seq<State>, acts: seq<Action>, a: Action)
    requires IsSlowRun(cfg, run, acts) && IsClean(cfg, run[|acts|], a) && Slow(run[|acts|], a)
    ensures IsSlowRun(cfg, run + [Next(cfg, run[|acts|], a)], acts + [a])
  {
    hide Next, IsClean, Slow;
  }

  /** Any clean run can be continued until nothing clean moves any more. */
  lemma {:induction false} RunsOut(cfg: Config, run: seq<State>, acts: seq<Action>)
      returns (whole: seq<State>, all: seq<Action>)
    requires Accepted(cfg) && IsSlowRun(cfg, run, acts)
    ensures IsSlowRun(cfg, whole, all) && !Useful(cfg, whole[|all|])
    decreases Rank(cfg, run[|acts|])
  {
    var s := run[|acts|];
    CleanRunInv(cfg, run, acts, |acts|);
    hide Inv, CleanInv, Next, IsClean, Rank;
    RankNonNegative(cfg, s);
    if Useful(cfg, s) {
      var a :| Moves(cfg, s, a);
      if !Slow(s, a) {
        a := Act(Server, Request(RndvGet));
        SlowMoves(cfg, s);
      }
      Extend(cfg, run, acts, a);
      NextRank(cfg, s, a);
      whole, all := RunsOut(cfg, run + [Next(cfg, s, a)], acts + [a]);
    } else {
      whole, all := run, acts;
    }
  }

  lemma SlowMoves(cfg: Config, s: State)
    requires Accepted(cfg) && Inv(cfg, s) && CleanInv(cfg, s) && s.s.pc.SPostSend?
    ensures Moves(cfg, s, Act(Server, Request(RndvGet)))
  {
    hide Inv, CleanInv, Next, IsClean;
    ServerGoes(cfg, s);
  }

  lemma {:induction false} KeepaliveRun(cfg: Config, run: seq<State>, acts: seq<Action>, i: nat)
    requires Accepted(cfg) && KeepaliveConfig(cfg) && IsCleanRun(cfg, run, acts) && i < |run|
    ensures BothWait(run[i])
  {
    Locs();
    hide Inv, CleanInv, Next, IsClean, Loc;
    if i > 0 {
      KeepaliveRun(cfg, run, acts, i - 1);
      CleanRunInv(cfg, run, acts, i - 1);
      BothWaitStep(cfg, run[i - 1], acts[i - 1]);
    }
  }

  lemma {:induction false} RendezvousRun(cfg: Config, run: seq<State>, acts: seq<Action>, i: nat)
    requires Accepted(cfg) && RendezvousConfig(cfg) && IsSlowRun(cfg, run, acts) && i < |run|
    ensures SendHangs(cfg, run[i])
  {
    hide Inv, CleanInv, Next, IsClean, SendHangs, Loc;
    if i == 0 {
      InitHangs(cfg);
    } else {
      RendezvousRun(cfg, run, acts, i - 1);
      CleanRunInv(cfg, run, acts, i - 1);
      SendHangsStep(cfg, run[i - 1], acts[i - 1]);
    }
  }

  lemma InitHangs(cfg: Config)
    ensures SendHangs(cfg, Init())
  {
    Locs();
    hide Loc;
  }

  /** Every configuration that is not live has a clean run to a state that nothing can leave. */
  lemma Hangs(cfg: Config) returns (s: State)
    requires Accepted(cfg) && !LiveConfig(cfg)
    ensures CleanReachable(cfg, s) && Stuck(cfg, s)
  {
    var run, acts := RunsOut(cfg, [Init()], []);
    s := run[|acts|];
    CleanRunInv(cfg, run, acts, |acts|);
    if cfg.clientErr.failure == NoFailure && (cfg.serverErr.failure == SendFailure || ToInt32(cfg.serverLen) < 0) {
      hide Inv, CleanInv, Next, IsClean;
      SilentNeverFinishes(cfg, s);
    } else if KeepaliveConfig(cfg) {
      hide Inv, CleanInv, Next, IsClean;
      KeepaliveRun(cfg, run, acts, |acts|);
      Locs();
    } else {
      hide Inv, CleanInv, Next, IsClean;
      RendezvousRun(cfg, run, acts, |acts|);
      Locs();
    }
  }

  /** The exact condition: no clean run hangs if and only if the configuration is live. */
  lemma LiveExactly(cfg: Config)
    requires Accepted(cfg)
    ensures LiveConfig(cfg) <==> forall s :: CleanReachable(cfg, s) ==> !Stuck(cfg, s)
  {
    hide CleanReachable, Stuck;
    if LiveConfig(cfg) {
      forall s | CleanReachable(cfg, s)
        ensures !Stuck(cfg, s)
      {
        NeverStuck(cfg, s);
      }
    } else {
      var s := Hangs(cfg);
    }
  }
}
