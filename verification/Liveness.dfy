/** Which configurations can hang, and that all others run to the end. */
module Liveness {
  import opened Wire
  import opened Roles
  import opened Machine
  import opened Safety
  import opened Measure
  import opened Clean

  predicate Ended(p: Proc) {
    p.pc.Done? || p.pc.Killed?
  }

  predicate Finished(s: State) {
    Ended(s.c) && Ended(s.s)
  }

  /** a is a clean action that changes something, hence lowers the rank. */
  predicate Moves(cfg: Config, s: State, a: Action) {
    IsClean(cfg, s, a) && Next(cfg, s, a) != s
  }

  ghost predicate Useful(cfg: Config, s: State) {
    exists a :: Moves(cfg, s, a)
  }

  /** Some process has not ended, and nothing clean will ever change that. */
  ghost predicate Stuck(cfg: Config, s: State) {
    !Finished(s) && !Useful(cfg, s)
  }

  // -------------------------------------------------------------------------------------------
  // Locations at which the process itself can always go on
  // -------------------------------------------------------------------------------------------

  /** Locations that wait for something. */
  predicate Waits(pc: Pc) {
    || InWaitLoop(pc) || pc.CRecvLen? || pc.CRecvAddr? || pc.BarrierPoll? || pc.BarrierRecv?
    || pc.Done? || pc.Killed?
  }

  /** The choice that goes on at a location that does not wait. */
  function Go(pc: Pc): Choice {
    if pc.CPostSend? || pc.SPostSend? then Request(RndvGet)
    else if pc.SPreProgress? then Ev(Idle)
    else Ok
  }

  lemma ClientGoes(cfg: Config, s: State)
    requires Accepted(cfg) && Inv(cfg, s) && CleanInv(cfg, s) && !Waits(s.c.pc) && !InCommon(s.c.pc)
    ensures Moves(cfg, s, Act(Client, Go(s.c.pc)))
  {
    ClientFacts(cfg, s);
    hide Inv, CleanInv, Moves;
    if s.c.pc in {CPostSend, CPostRecv} { ClientCalls(cfg, s); } else { ClientAllocates(cfg, s); }
  }

  lemma ClientAllocates(cfg: Config, s: State)
    requires s.c.pc in {CAllocPeer, CCreateEp, CAllocOut, CAllocIn, CAllocStr}
    ensures Moves(cfg, s, Act(Client, Ok))
  {
    hide CommonStep;
    assert Next(cfg, s, Act(Client, Ok)).c.pc != s.c.pc;
  }

  lemma ClientCalls(cfg: Config, s: State)
    requires s.c.pc.CPostSend? || (s.c.pc.CPostRecv? && Find(s.sc, Claimed) < |s.sc|)
    ensures Moves(cfg, s, Act(Client, Go(s.c.pc)))
  {
    hide CommonStep;
    assert Next(cfg, s, Act(Client, Go(s.c.pc))).c.pc != s.c.pc;
  }

  lemma ClientFacts(cfg: Config, s: State)
    requires Inv(cfg, s)
    ensures s.c.pc.CPostRecv? ==> Find(s.sc, Claimed) < |s.sc|
    ensures !Waits(s.c.pc) && !InCommon(s.c.pc) ==>
              s.c.pc in {CAllocPeer, CCreateEp, CAllocOut, CPostSend, CAllocIn, CPostRecv, CAllocStr}
  {
    Locs();
    hide Loc, StreamsOk;
  }

  lemma ServerGoes(cfg: Config, s: State)
    requires Accepted(cfg) && Inv(cfg, s) && CleanInv(cfg, s) && !Waits(s.s.pc) && !InCommon(s.s.pc)
    ensures Moves(cfg, s, Act(Server, Go(s.s.pc)))
  {
    ServerFacts(cfg, s);
    hide Inv, CleanInv;
    if s.s.pc in {SAllocIn, SAllocPeer, SAllocOut, SGenAlloc, SCreateEp} { ServerAllocates(cfg, s); }
    else { ServerCalls(cfg, s); }
  }

  lemma ServerAllocates(cfg: Config, s: State)
    requires s.s.pc in {SAllocIn, SAllocPeer, SAllocOut, SGenAlloc, SCreateEp}
    ensures Moves(cfg, s, Act(Server, Ok))
  {
    hide CommonStep;
    assert Next(cfg, s, Act(Server, Ok)).s.pc != s.s.pc;
  }

  lemma ServerCalls(cfg: Config, s: State)
    requires s.s.pc in {SSendLen, SSendAddr, SPostRecv, SPreProgress, SPostSend, SPostFlush}
    requires s.s.pc.SPostRecv? ==> Find(s.cs, Claimed) < |s.cs|
    ensures Moves(cfg, s, Act(Server, Go(s.s.pc)))
  {
    hide CommonStep, ClientStep;
    BackgroundKeepsProcs(s, Server, Idle);
    assert Next(cfg, s, Act(Server, Go(s.s.pc))).s.pc != s.s.pc;
  }

  lemma ServerFacts(cfg: Config, s: State)
    requires Inv(cfg, s)
    ensures s.s.pc.SPostRecv? ==> Find(s.cs, Claimed) < |s.cs|
    ensures s.s.pc !in {CRecvLen, CAllocPeer, CRecvAddr, CCreateEp, CAllocOut, CPostSend, CWaitSend,
                        CProbe, CAllocIn, CPostRecv, CWaitRecv, CAllocStr}
  {
    Locs();
    hide Loc, StreamsOk;
  }

  lemma CommonGoes(cfg: Config, s: State, r: Role)
    requires Accepted(cfg) && Inv(cfg, s) && CleanInv(cfg, s) && !Waits(s.P(r).pc) && InCommon(s.P(r).pc)
    ensures Moves(cfg, s, Act(r, Ok))
  {
    hide Inv, CleanInv, LocalStep, Flushed;
    if s.P(r).pc.PostClose? { ClosingEp(cfg, s, r); }
    var o := if s.P(r).pc.PostClose? then Post(Later) else if s.P(r).pc.BarrierSend? then Sent(|TOKEN|) else Called;
    CommonIsLocal(cfg, r, s.P(r), o);
    CommonLeaves(cfg, r, s.P(r));
    hide CommonStep;
    assert Next(cfg, s, Act(r, Ok)).P(r).pc != s.P(r).pc;
  }

  lemma CommonLeaves(cfg: Config, r: Role, p: Proc)
    requires !Waits(p.pc) && InCommon(p.pc) && (p.pc.PostClose? ==> p.ep.Open?)
    ensures var o := if p.pc.PostClose? then Post(Later) else if p.pc.BarrierSend? then Sent(|TOKEN|) else Called;
            CommonStep(cfg, r, p, o).pc != p.pc
  {
  }

  lemma ClosingEp(cfg: Config, s: State, r: Role)
    requires Inv(cfg, s) && s.P(r).pc.PostClose?
    ensures s.P(r).ep.Open?
  {
    hide OutOk, StreamsOk;
  }

  lemma Goes(cfg: Config, s: State, r: Role)
    requires Accepted(cfg) && Inv(cfg, s) && CleanInv(cfg, s) && !Waits(s.P(r).pc)
    ensures Useful(cfg, s)
  {
    hide Inv, CleanInv, Moves;
    if InCommon(s.P(r).pc) { CommonGoes(cfg, s, r); }
    else if r.Client? { ClientGoes(cfg, s); }
    else { ServerGoes(cfg, s); }
  }

  // -------------------------------------------------------------------------------------------
  // Waits of the address exchange and the first message
  // -------------------------------------------------------------------------------------------

  lemma Delivers(cfg: Config, s: State, from: Role)
    requires s.Oob(from).arrived < |s.Oob(from).sent|
    ensures Useful(cfg, s)
  {
    var a := Deliver(from, 1);
    assert Next(cfg, s, a).Oob(from).arrived == s.Oob(from).arrived + 1;
    assert Moves(cfg, s, a);
  }

  lemma Takes(cfg: Config, s: State, r: Role, need: nat)
    requires s.P(r).pc in {CRecvLen, CRecvAddr, BarrierRecv}
    requires need == if s.P(r).pc.CRecvLen? then HEADER else if s.P(r).pc.CRecvAddr? then s.P(r).seen else |TOKEN|
    requires s.Oob(r.Peer()).Valid() && need <= s.Oob(r.Peer()).Avail()
    requires s.P(r).pc in {CRecvLen, CRecvAddr} ==> r.Client?
    ensures Useful(cfg, s)
  {
    var st := s.Oob(r.Peer());
    var o := Recvd(st.sent[st.taken..st.taken + need], false);
    var a := Act(r, Ok);
    if s.P(r).pc.BarrierRecv? { CommonIsLocal(cfg, r, s.P(r), o); }
    assert Next(cfg, s, a).P(r).pc != s.P(r).pc by { hide ServerStep; }
    assert Moves(cfg, s, a);
  }

  lemma ExchangeWait(cfg: Config, s: State)
    requires Accepted(cfg) && Inv(cfg, s) && CleanInv(cfg, s) && (s.c.pc.CRecvLen? || s.c.pc.CRecvAddr?)
    ensures Useful(cfg, s)
  {
    var need := if s.c.pc.CRecvLen? then HEADER else s.c.seen;
    StreamsValid(cfg, s);
    if s.oobSC.arrived < |s.oobSC.sent| {
      Delivers(cfg, s, Server);
    } else if need <= s.oobSC.Avail() {
      Takes(cfg, s, Client, need);
    } else {
      assert s.s.pc.SSendLen? || s.s.pc.SSendAddr? by { ExchangeShort(cfg, s); }
      ServerGoes(cfg, s);
    }
    hide Inv, CleanInv;
  }

  /** If the client lacks bytes of the exchange that were never written, the server is about to write them. */
  lemma ExchangeShort(cfg: Config, s: State)
    requires Inv(cfg, s) && CleanInv(cfg, s) && (s.c.pc.CRecvLen? || s.c.pc.CRecvAddr?)
    requires s.oobSC.arrived == |s.oobSC.sent|
    requires s.oobSC.Avail() < if s.c.pc.CRecvLen? then HEADER else s.c.seen
    ensures s.s.pc.SSendLen? || s.s.pc.SSendAddr?
  {
    ClientSeen(cfg, s);
    Locs();
    EarlyServerPc(cfg, s);
    hide Loc, ProcOk, ClientOk, ServerOk, OutOk, CleanOut, CleanProc;
  }

  lemma EarlyServerPc(cfg: Config, s: State)
    requires Inv(cfg, s)
    ensures Loc(s.s.pc) < S_PROBE <==> s.s.pc.SSendLen? || s.s.pc.SSendAddr?
  {
    Locs();
    hide Loc, OutOk, StreamsOk;
  }

  lemma EarlyClient(cfg: Config, s: State)
    requires Accepted(cfg) && Inv(cfg, s) && CleanInv(cfg, s) && Loc(s.c.pc) <= C_POST_SEND
    ensures Useful(cfg, s)
  {
    if s.c.pc.CRecvLen? || s.c.pc.CRecvAddr? {
      ExchangeWait(cfg, s);
    } else {
      EarlyClientPc(cfg, s);
      ClientGoes(cfg, s);
    }
    hide Inv, CleanInv;
  }

  lemma EarlyClientPc(cfg: Config, s: State)
    requires Inv(cfg, s) && Loc(s.c.pc) <= C_POST_SEND && !s.c.pc.CRecvLen? && !s.c.pc.CRecvAddr?
    ensures !Waits(s.c.pc) && !InCommon(s.c.pc)
  {
    Locs();
    hide Loc, OutOk, StreamsOk;
  }

  /** One event at r's wait that changes the message coming to r. */
  lemma ArrivesAt(cfg: Config, s: State, r: Role)
    requires Inv(cfg, s) && s.Out(r.Peer()) != [] && s.Out(r.Peer())[0].stage.OnWire?
    requires s.P(r).pc in {CProbe, SProbe}
    ensures Useful(cfg, s)
  {
    hide Inv, Local;
    AtMostOne(cfg, s);
    RoleOf(cfg, s, r);
    var inc := s.Out(r.Peer());
    var a := Act(r, Ev(Arrive));
    var t := Background(s, r, Arrive);
    assert t.Out(r.Peer())[0].stage.Unexpected?;
    assert Next(cfg, s, a).Out(r.Peer())[0].stage != OnWire by { LocalKeepsOut(cfg, s, r); }
    assert Moves(cfg, s, a);
  }

  lemma LocalKeepsOut(cfg: Config, s: State, r: Role)
    ensures forall u, o :: Local(cfg, u, r, o).cs == u.cs && Local(cfg, u, r, o).sc == u.sc
  {
    hide LocalStep;
  }

  lemma HitsAt(cfg: Config, s: State, r: Role)
    requires Inv(cfg, s) && s.Out(r.Peer()) != [] && s.Out(r.Peer())[0].stage.Unexpected?
    requires s.P(r).pc in {CProbe, SProbe}
    ensures Useful(cfg, s)
  {
    hide Inv, Local;
    AtMostOne(cfg, s);
    RoleOf(cfg, s, r);
    TagOk(cfg, s, r.Peer());
    LocalKeepsOut(cfg, s, r);
    var a := Act(r, Ev(Idle));
    assert Next(cfg, s, a).Out(r.Peer())[0].stage.Claimed?;
    assert Moves(cfg, s, a);
  }

  lemma TagOk(cfg: Config, s: State, from: Role)
    requires Inv(cfg, s) && s.Out(from) != []
    ensures s.Out(from)[0].tag == TAG && |s.Out(from)| == 1
  {
    hide ProcOk, ClientOk, ServerOk, StreamsOk, Loc;
  }

  lemma ServerProbeWait(cfg: Config, s: State)
    requires Accepted(cfg) && Inv(cfg, s) && CleanInv(cfg, s) && s.s.pc.SProbe?
    ensures Useful(cfg, s)
  {
    ProbeStage(cfg, s, Server);
    if s.cs == [] {
      EarlyClient(cfg, s);
    } else if s.cs[0].stage.OnWire? {
      ArrivesAt(cfg, s, Server);
    } else {
      HitsAt(cfg, s, Server);
    }
    hide Inv, CleanInv;
  }

  lemma ProbeStage(cfg: Config, s: State, r: Role)
    requires Inv(cfg, s) && CleanInv(cfg, s) && s.P(r).pc in {CProbe, SProbe}
    ensures s.Out(r.Peer()) != [] ==> s.Out(r.Peer())[0].stage.OnWire? || s.Out(r.Peer())[0].stage.Unexpected?
    ensures r.Server? && s.cs == [] ==> Loc(s.c.pc) <= C_POST_SEND
  {
    RoleOf(cfg, s, r);
    Locs();
    hide Loc, ProcOk, ClientOk, ServerOk, StreamsOk, CleanProc, CleanStream;
  }

  lemma PendingPc(cfg: Config, s: State, r: Role)
    requires Inv(cfg, s) && SendPending(r, Loc(s.P(r).pc))
    ensures Waiting(s.P(r)) && !Gone(s.P(r))
  {
    Locs();
    hide Loc, OutOk, StreamsOk;
  }

  /** A posted receive can go on: its message is complete, or the rendezvous read is possible. */
  lemma RecvCompletes(cfg: Config, s: State, r: Role)
    requires Inv(cfg, s) && s.P(r).pc in {CWaitRecv, SWaitRecv} && |s.Out(r.Peer())| == 1
    requires s.Out(r.Peer())[0].stage.Matched? && s.Out(r.Peer())[0].data.Some?
    ensures Useful(cfg, s)
  {
    hide Inv, LocalStep;
    InBuffer(cfg, s, r);
    RoleOf(cfg, s, r);
    var a := Act(r, Ev(Complete));
    assert Next(cfg, s, a).Out(r.Peer())[0].stage.Received?;
    assert Moves(cfg, s, a);
  }

  lemma RecvWait(cfg: Config, s: State, r: Role)
    requires Accepted(cfg) && Inv(cfg, s) && CleanInv(cfg, s) && s.P(r).pc in {CWaitRecv, SWaitRecv}
    ensures Useful(cfg, s)
  {
    RecvMessage(cfg, s, r);
    hide Inv, CleanInv;
    if s.Out(r.Peer())[0].data.Some? {
      RecvCompletes(cfg, s, r);
    } else {
      PendingPc(cfg, s, r.Peer());
      RendezvousMoves(cfg, s, r);
    }
  }

  lemma RecvMessage(cfg: Config, s: State, r: Role)
    requires Inv(cfg, s) && CleanInv(cfg, s) && s.P(r).pc in {CWaitRecv, SWaitRecv}
    ensures var inc := s.Out(r.Peer());
            && |inc| == 1 && inc[0].stage.Matched? && (inc[0].kind.Eager? ==> inc[0].data.Some?)
            && (inc[0].data.None? ==> !inc[0].aborted && SendPending(r.Peer(), Loc(s.P(r.Peer()).pc)))
  {
    RoleOf(cfg, s, r);
    Locs();
    hide Loc, ProcOk, ClientOk, ServerOk, StreamsOk, CleanProc, CleanStream;
  }

  lemma RendezvousMoves(cfg: Config, s: State, r: Role)
    requires Inv(cfg, s) && s.P(r).pc in {CWaitRecv, SWaitRecv} && Waiting(s.P(r.Peer()))
    requires var inc := s.Out(r.Peer());
             |inc| == 1 && inc[0].stage.Matched? && inc[0].data.None? && !inc[0].aborted && !inc[0].kind.Eager?
    ensures Useful(cfg, s)
  {
    hide Inv;
    InBuffer(cfg, s, r);
    OutBufferWaiting(cfg, s, r.Peer());
    MoveMoves(s, r.Peer());
    EventIsBackground(cfg, s, r, MoveIn);
    EventIsBackground(cfg, s, r.Peer(), MoveOut);
    hide CanMove, Move, Act1;
    if s.Out(r.Peer())[0].kind.RndvGet? {
      assert Moves(cfg, s, Act(r, Ev(MoveIn)));
    } else {
      assert Moves(cfg, s, Act(r.Peer(), Ev(MoveOut)));
    }
  }

  lemma EventIsBackground(cfg: Config, s: State, r: Role, e: Event)
    requires (Waiting(s.P(r)) || s.P(r).pc in {CWaitRecv, SWaitRecv}) && (e.MoveIn? || e.MoveOut?)
    ensures Act1(cfg, s, r, Ev(e)) == Background(s, r, e)
  {
    hide Background;
  }

  lemma MoveMoves(s: State, from: Role)
    requires s.P(from).heap.outMsg.Some? && s.P(from.Peer()).heap.inMsg.Some?
    requires var ts := s.Out(from);
             |ts| == 1 && ts[0].stage.Matched? && ts[0].data.None? && !ts[0].aborted
    ensures CanMove(s, from, s.Out(from)[0].kind) && Move(s, from) != s
  {
    assert Find(s.Out(from), Matched) == 0;
    assert Move(s, from).Out(from)[0].data.Some?;
  }

  lemma OutBufferWaiting(cfg: Config, s: State, r: Role)
    requires Inv(cfg, s) && Waiting(s.P(r))
    ensures s.P(r).heap.outMsg.Some?
  {
    hide OutOk, StreamsOk;
  }

  lemma EarlyServer(cfg: Config, s: State)
    requires Accepted(cfg) && Inv(cfg, s) && CleanInv(cfg, s) && Loc(s.s.pc) <= S_POST_SEND
    ensures Useful(cfg, s)
  {
    if s.s.pc.SProbe? {
      ServerProbeWait(cfg, s);
    } else if s.s.pc.SWaitRecv? {
      RecvWait(cfg, s, Server);
    } else {
      EarlyServerWaits(cfg, s);
      ServerGoes(cfg, s);
    }
    hide Inv, CleanInv;
  }

  lemma EarlyServerWaits(cfg: Config, s: State)
    requires Inv(cfg, s) && Loc(s.s.pc) <= S_POST_SEND && !s.s.pc.SProbe? && !s.s.pc.SWaitRecv?
    ensures !Waits(s.s.pc) && !InCommon(s.s.pc)
  {
    Locs();
    hide Loc, OutOk, StreamsOk;
  }

  lemma SendCompletes(cfg: Config, s: State, r: Role)
    requires s.P(r).pc in {CWaitSend, SWaitSend} && SendCanComplete(s, r)
    requires s.P(r).pc.CWaitSend? <==> r.Client?
    ensures Useful(cfg, s)
  {
    var a := Act(r, Ev(Complete));
    assert Next(cfg, s, a).P(r).pc != s.P(r).pc;
    assert Moves(cfg, s, a);
  }

  /** The holder of a probed message goes on. */
  lemma HolderGoes(cfg: Config, s: State, r: Role)
    requires Accepted(cfg) && Inv(cfg, s) && CleanInv(cfg, s) && Holding(r, Loc(s.P(r).pc))
    ensures Useful(cfg, s)
  {
    HoldingPc(cfg, s, r);
    hide Inv, CleanInv, Loc, Moves, Waits;
    Goes(cfg, s, r);
  }

  lemma HoldingPc(cfg: Config, s: State, r: Role)
    requires Inv(cfg, s) && Holding(r, Loc(s.P(r).pc))
    ensures s.P(r).pc in {CAllocIn, CPostRecv, SAllocIn, SPostRecv} && !Waits(s.P(r).pc)
  {
    Locs();
    hide Loc, OutOk, StreamsOk;
  }

  lemma ReceivingPc(cfg: Config, s: State, r: Role)
    requires Inv(cfg, s) && Receiving(r, Loc(s.P(r).pc))
    ensures s.P(r).pc in {CWaitRecv, SWaitRecv}
  {
    Locs();
    hide Loc, OutOk, StreamsOk;
  }

  lemma ClientSendWait(cfg: Config, s: State)
    requires Accepted(cfg) && Inv(cfg, s) && CleanInv(cfg, s) && s.c.pc.CWaitSend?
    ensures Useful(cfg, s)
  {
    hide Inv, CleanInv, Loc;
    ClientSendStage(cfg, s);
    if s.cs[0].data.Some? {
      SendCompletes(cfg, s, Client);
    } else if s.cs[0].stage.Claimed? {
      HolderGoes(cfg, s, Server);
    } else if s.cs[0].stage.Matched? {
      ReceivingPc(cfg, s, Server);
      RecvWait(cfg, s, Server);
    } else {
      EarlyServer(cfg, s);
    }
  }

  lemma ClientSendStage(cfg: Config, s: State)
    requires Inv(cfg, s) && CleanInv(cfg, s) && s.c.pc.CWaitSend?
    ensures |s.cs| == 1
    ensures var t := s.cs[0];
            && (t.stage.Claimed? ==> Holding(Server, Loc(s.s.pc)))
            && (t.stage.Matched? ==> Receiving(Server, Loc(s.s.pc)))
            && (t.stage.Received? ==> t.data.Some?)
            && (t.stage.OnWire? || t.stage.Unexpected? ==> Loc(s.s.pc) <= S_POST_SEND)
  {
    Locs();
    hide Loc, ProcOk, ClientOk, ServerOk, StreamsOk, CleanProc, CleanStream;
  }

  // -------------------------------------------------------------------------------------------
  // The client's receive loop
  // -------------------------------------------------------------------------------------------

  /** The condition on the two -e settings and the server's -s under which no clean run hangs. */
  predicate LiveConfig(cfg: Config) {
    var c, s := cfg.clientErr.failure, cfg.serverErr.failure;
    if ToInt32(cfg.serverLen) < 0 then c != NoFailure
    else
      || (c == NoFailure <==> s == NoFailure)
      || (c == NoFailure && s == RecvFailure)
      || (c == SendFailure && s == NoFailure)
  }

  lemma HandlerMoves(cfg: Config, s: State, r: Role)
    requires Detects(cfg, s, r) && s.P(r).ep.Open? && s.P(r).epOk
    requires s.P(r).pc in {CProbe, SSpinKeepalive} && (s.P(r).pc.CProbe? <==> r.Client?)
    requires r.Client? ==> !Probeable(s.sc)
    ensures Useful(cfg, s)
  {
    var a := Act(r, Ev(HandlerRuns));
    assert Next(cfg, s, a).P(r).epOk == false;
    assert Moves(cfg, s, a);
  }

  /** A server that has nothing to send after its turn is on its way out, or out. */
  lemma ServerLeaves(cfg: Config, s: State)
    requires Accepted(cfg) && Inv(cfg, s) && CleanInv(cfg, s) && s.sc == [] && Loc(s.s.pc) > S_POST_SEND
    requires !Gone(s.c)
    ensures Useful(cfg, s) || (Gone(s.s) && (s.s.pc.Killed? ==> cfg.serverErr.failure == SendFailure)
                               && (!s.s.pc.Killed? ==> ToInt32(cfg.serverLen) < 0))
  {
    SilentServer(cfg, s);
    hide Inv, CleanInv, Loc;
    if s.s.pc.WaitClose? {
      CloseCompletes(cfg, s, Server);
    } else if !Gone(s.s) {
      Goes(cfg, s, Server);
    } else if s.s.pc.CleanupCtx? {
      Goes(cfg, s, Server);
    }
  }

  lemma SilentServer(cfg: Config, s: State)
    requires Inv(cfg, s) && CleanInv(cfg, s) && s.sc == [] && Loc(s.s.pc) > S_POST_SEND && !Gone(s.c)
    ensures s.s.pc in {PostClose, WaitClose, CloseSock, ReleaseAddr, DestroyWorker, CleanupCtx, Done, Killed}
    ensures s.s.pc.Killed? ==> cfg.serverErr.failure == SendFailure
    ensures !s.s.pc.Killed? ==> ToInt32(cfg.serverLen) < 0
    ensures Gone(s.s) <==> s.s.pc in {CleanupCtx, Done, Killed}
  {
    Locs();
    KilledLoc(s.s.pc);
    hide Loc, StreamsOk, CleanStream;
  }

  lemma CloseCompletes(cfg: Config, s: State, r: Role)
    requires s.P(r).pc.WaitClose? && ((s.P(r).ep.Closed? && s.P(r).ep.force) || Flushed(s.Out(r)))
    ensures Useful(cfg, s)
  {
    var a := Act(r, Ev(Complete));
    CommonIsLocal(cfg, r, s.P(r), Progress(OpDone(true)));
    assert Next(cfg, s, a).P(r).pc != s.P(r).pc by { hide LocalStep; }
    assert Moves(cfg, s, a);
  }

  lemma ClientProbeWait(cfg: Config, s: State)
    requires Accepted(cfg) && LiveConfig(cfg) && Inv(cfg, s) && CleanInv(cfg, s) && s.c.pc.CProbe?
    ensures Useful(cfg, s)
  {
    hide LiveConfig, Useful;
    ProbeStage(cfg, s, Client);
    hide Inv, CleanInv, Loc;
    if s.sc != [] {
      if s.sc[0].stage.OnWire? { ArrivesAt(cfg, s, Client); } else { HitsAt(cfg, s, Client); }
    } else if Loc(s.s.pc) <= S_POST_SEND {
      EarlyServer(cfg, s);
    } else {
      NothingToProbe(cfg, s);
    }
  }

  lemma NothingToProbe(cfg: Config, s: State)
    requires Accepted(cfg) && LiveConfig(cfg) && Inv(cfg, s) && CleanInv(cfg, s) && s.c.pc.CProbe?
    requires s.sc == [] && Loc(s.s.pc) > S_POST_SEND
    ensures Useful(cfg, s)
  {
    hide Inv, CleanInv, Useful, Loc;
    ClientProbeEp(cfg, s);
    ServerLeaves(cfg, s);
    if !Useful(cfg, s) {
      HandlerMoves(cfg, s, Client);
    }
  }

  lemma ClientProbeEp(cfg: Config, s: State)
    requires Inv(cfg, s) && CleanInv(cfg, s) && s.c.pc.CProbe?
    ensures s.c.ep.Open? && s.c.epOk && !Gone(s.c)
  {
    Locs();
    hide Loc, OutOk, StreamsOk, CleanOut, CleanStream;
  }

  // -------------------------------------------------------------------------------------------
  // Closing
  // -------------------------------------------------------------------------------------------

  lemma CloseWait(cfg: Config, s: State, r: Role)
    requires Accepted(cfg) && Inv(cfg, s) && CleanInv(cfg, s) && s.P(r).pc.WaitClose?
    ensures Useful(cfg, s)
  {
    CloseEp(cfg, s, r);
    if !CloseFlags(cfg.Err(r)) {
      if r.Client? { ClientFlushed(cfg, s); } else { ServerFlushed(cfg, s); }
    }
    hide Inv, CleanInv, Flushed;
    CloseCompletes(cfg, s, r);
  }

  lemma CloseEp(cfg: Config, s: State, r: Role)
    requires Inv(cfg, s) && s.P(r).pc.WaitClose?
    ensures s.P(r).ep.Closed? && s.P(r).ep.force == CloseFlags(cfg.Err(r))
  {
    hide OutOk, StreamsOk;
  }

  lemma ClientFlushed(cfg: Config, s: State)
    requires Accepted(cfg) && Inv(cfg, s) && CleanInv(cfg, s) && s.c.pc.WaitClose? && cfg.clientErr.failure == NoFailure
    ensures Flushed(s.cs)
  {
    Locs();
    hide Loc, ProcOk, ClientOk, ServerOk, StreamsOk, CleanProc, CleanStream;
  }

  lemma ServerFlushed(cfg: Config, s: State)
    requires Accepted(cfg) && Inv(cfg, s) && CleanInv(cfg, s) && s.s.pc.WaitClose? && cfg.serverErr.failure == NoFailure
    ensures Flushed(s.sc)
  {
    Locs();
    hide Loc, ProcOk, ClientOk, ServerOk, StreamsOk, CleanProc, CleanStream;
  }

  // -------------------------------------------------------------------------------------------
  // Each role, barrier aside
  // -------------------------------------------------------------------------------------------

  predicate AtBarrierOrEnd(pc: Pc) {
    pc.BarrierPoll? || pc.BarrierRecv? || pc.Done? || pc.Killed?
  }

  lemma ClientUseful(cfg: Config, s: State)
    requires Accepted(cfg) && LiveConfig(cfg) && Inv(cfg, s) && CleanInv(cfg, s) && !AtBarrierOrEnd(s.c.pc)
    ensures Useful(cfg, s)
  {
    ClientPc(cfg, s);
    hide Inv, CleanInv;
    if s.c.pc.CRecvLen? || s.c.pc.CRecvAddr? { ExchangeWait(cfg, s); }
    else if s.c.pc.CWaitSend? { ClientSendWait(cfg, s); }
    else if s.c.pc.CProbe? { ClientProbeWait(cfg, s); }
    else if s.c.pc.CWaitRecv? { RecvWait(cfg, s, Client); }
    else if s.c.pc.WaitClose? { CloseWait(cfg, s, Client); }
    else { Goes(cfg, s, Client); }
  }

  lemma ClientPc(cfg: Config, s: State)
    requires Inv(cfg, s)
    ensures InWaitLoop(s.c.pc) ==> s.c.pc in {CWaitSend, CProbe, CWaitRecv, WaitClose}
    ensures s.c.pc.Killed? ==> cfg.clientErr.failure in {RecvFailure, KeepaliveFailure}
    ensures s.c.pc in {BarrierSend, BarrierPoll, BarrierRecv} ==> cfg.clientErr.failure == NoFailure
  {
    Locs();
    hide Loc, OutOk, StreamsOk;
  }

  /** A client killed by its failure mode leaves a waiting server that detects it, or a configuration
      that is not live. */
  lemma KilledDetected(cfg: Config, s: State)
    requires Accepted(cfg) && LiveConfig(cfg) && Inv(cfg, s) && s.c.pc.Killed? && s.sc != []
    requires s.s.pc in {SWaitSend, SWaitFlush}
    ensures Detects(cfg, s, Server)
  {
    ClientPc(cfg, s);
    KilledLoc(s.c.pc);
    Locs();
    hide Loc, StreamsOk;
  }

  lemma ServerBreaks(cfg: Config, s: State)
    requires Detects(cfg, s, Server) && s.s.pc in {SWaitSend, SWaitFlush}
    ensures Useful(cfg, s)
  {
    var a := Act(Server, Ev(Break));
    assert Next(cfg, s, a).s.pc != s.s.pc;
    assert Moves(cfg, s, a);
  }

  /** The client has not reached its probe, or is at it. */
  lemma UpToProbe(cfg: Config, s: State)
    requires Accepted(cfg) && LiveConfig(cfg) && Inv(cfg, s) && CleanInv(cfg, s) && Loc(s.c.pc) <= C_PROBE
    ensures Useful(cfg, s)
  {
    if AtBarrierOrEnd(s.c.pc) { NotBarrier(s.c.pc); }
    Locs();
    hide Inv, CleanInv, Loc;
    ClientUseful(cfg, s);
  }

  lemma NotBarrier(pc: Pc)
    requires AtBarrierOrEnd(pc)
    ensures Loc(pc) > S_WAIT_FLUSH
  {
    Locs();
  }

  lemma ServerSendWait(cfg: Config, s: State)
    requires Accepted(cfg) && LiveConfig(cfg) && Inv(cfg, s) && CleanInv(cfg, s) && s.s.pc.SWaitSend?
    ensures Useful(cfg, s)
  {
    ServerSendStage(cfg, s);
    hide Inv, CleanInv, Loc;
    var t := s.sc[0];
    if t.data.Some? {
      SendCompletes(cfg, s, Server);
    } else if s.c.pc.Killed? {
      KilledDetected(cfg, s);
      ServerBreaks(cfg, s);
    } else if t.stage.Claimed? {
      HolderGoes(cfg, s, Client);
    } else if t.stage.Matched? {
      ReceivingPc(cfg, s, Client);
      RecvWait(cfg, s, Client);
    } else {
      UpToProbe(cfg, s);
    }
  }

  lemma ServerSendStage(cfg: Config, s: State)
    requires Inv(cfg, s) && CleanInv(cfg, s) && s.s.pc.SWaitSend?
    ensures |s.sc| == 1
    ensures var t := s.sc[0];
            && (t.stage.Claimed? && !s.c.pc.Killed? ==> Holding(Client, Loc(s.c.pc)))
            && (t.stage.Matched? ==> Receiving(Client, Loc(s.c.pc)))
            && (t.stage.Received? ==> t.data.Some?)
            && ((t.stage.OnWire? || t.stage.Unexpected?) && !s.c.pc.Killed? ==> Loc(s.c.pc) <= C_PROBE)
  {
    KilledLoc(s.c.pc);
    Locs();
    hide Loc, ProcOk, ClientOk, ServerOk, StreamsOk, CleanProc, CleanStream;
  }

  lemma ServerSpinWait(cfg: Config, s: State)
    requires Accepted(cfg) && LiveConfig(cfg) && Inv(cfg, s) && CleanInv(cfg, s) && s.s.pc.SSpinKeepalive?
    ensures Useful(cfg, s)
  {
    SpinFacts(cfg, s);
    ClientPc(cfg, s);
    Locs();
    hide Inv, CleanInv, Loc;
    if Gone(s.c) {
      HandlerMoves(cfg, s, Server);
    } else {
      ClientUseful(cfg, s);
    }
  }

  lemma SpinFacts(cfg: Config, s: State)
    requires Inv(cfg, s) && CleanInv(cfg, s) && s.s.pc.SSpinKeepalive?
    ensures s.s.ep.Open? && s.s.epOk && cfg.serverErr.failure == KeepaliveFailure && ToInt32(cfg.serverLen) >= 0
  {
    hide OutOk, StreamsOk, CleanOut, CleanStream;
  }

  lemma FlushCompletes(cfg: Config, s: State)
    requires s.s.pc.SWaitFlush? && Flushed(s.sc)
    ensures Useful(cfg, s)
  {
    var a := Act(Server, Ev(Complete));
    assert Next(cfg, s, a).s.pc != s.s.pc;
    assert Moves(cfg, s, a);
  }

  lemma ServerFlushWait(cfg: Config, s: State)
    requires Accepted(cfg) && LiveConfig(cfg) && Inv(cfg, s) && CleanInv(cfg, s) && s.s.pc.SWaitFlush?
    ensures Useful(cfg, s)
  {
    if Flushed(s.sc) {
      FlushCompletes(cfg, s);
    } else {
      UnflushedClient(cfg, s);
      hide Inv, CleanInv, Loc, Flushed;
      if s.c.pc.Killed? {
        KilledDetected(cfg, s);
        ServerBreaks(cfg, s);
      } else {
        UpToProbe(cfg, s);
      }
    }
  }

  lemma UnflushedClient(cfg: Config, s: State)
    requires Inv(cfg, s) && CleanInv(cfg, s) && s.s.pc.SWaitFlush? && !Flushed(s.sc)
    ensures s.sc != [] && (s.c.pc.Killed? || Loc(s.c.pc) <= C_PROBE)
  {
    KilledLoc(s.c.pc);
    Locs();
    hide Loc, ProcOk, ClientOk, ServerOk, StreamsOk, CleanProc, CleanStream;
  }

  lemma ServerUseful(cfg: Config, s: State)
    requires Accepted(cfg) && LiveConfig(cfg) && Inv(cfg, s) && CleanInv(cfg, s) && !AtBarrierOrEnd(s.s.pc)
    ensures Useful(cfg, s)
  {
    ServerPc(cfg, s);
    hide Inv, CleanInv;
    if s.s.pc.SProbe? { ServerProbeWait(cfg, s); }
    else if s.s.pc.SWaitRecv? { RecvWait(cfg, s, Server); }
    else if s.s.pc.SWaitSend? { ServerSendWait(cfg, s); }
    else if s.s.pc.SSpinKeepalive? { ServerSpinWait(cfg, s); }
    else if s.s.pc.SWaitFlush? { ServerFlushWait(cfg, s); }
    else if s.s.pc.WaitClose? { CloseWait(cfg, s, Server); }
    else { Goes(cfg, s, Server); }
  }

  lemma ServerPc(cfg: Config, s: State)
    requires Inv(cfg, s) && CleanInv(cfg, s)
    ensures InWaitLoop(s.s.pc) ==> s.s.pc in {SProbe, SWaitRecv, SWaitSend, SSpinKeepalive, SWaitFlush, WaitClose}
    ensures !s.s.pc.CRecvLen? && !s.s.pc.CRecvAddr?
  {
    hide Loc, OutOk, StreamsOk, CleanOut, CleanStream;
  }

  lemma RoleUseful(cfg: Config, s: State, r: Role)
    requires Accepted(cfg) && LiveConfig(cfg) && Inv(cfg, s) && CleanInv(cfg, s) && !AtBarrierOrEnd(s.P(r).pc)
    ensures Useful(cfg, s)
  {
    hide Inv, CleanInv;
    if r.Client? { ClientUseful(cfg, s); } else { ServerUseful(cfg, s); }
  }

  // -------------------------------------------------------------------------------------------
  // Barrier
  // -------------------------------------------------------------------------------------------

  lemma PollMoves(cfg: Config, s: State, r: Role)
    requires s.P(r).pc.BarrierPoll? && PollReady(s, r)
    ensures Useful(cfg, s)
  {
    var a := Act(r, Ev(Idle));
    CommonIsLocal(cfg, r, s.P(r), Readable(Nothing));
    assert Next(cfg, s, a).P(r).pc != s.P(r).pc by { hide LocalStep; }
    assert Moves(cfg, s, a);
  }

  lemma EofMoves(cfg: Config, s: State, r: Role, n: nat)
    requires s.P(r).pc.BarrierRecv? && AtEof(s, r, n) && n < |TOKEN| && s.Oob(r.Peer()).Valid()
    ensures Useful(cfg, s)
  {
    var a := Act(r, Short(n));
    var st := s.Oob(r.Peer());
    CommonIsLocal(cfg, r, s.P(r), Recvd(st.sent[st.taken..st.taken + n], false));
    assert Next(cfg, s, a).P(r).pc != s.P(r).pc by { hide LocalStep; }
    assert Moves(cfg, s, a);
  }

  /** When all bytes have arrived and none is a token, the peer has neither sent one nor closed. */
  lemma BarrierFacts(cfg: Config, s: State, r: Role)
    requires Inv(cfg, s) && CleanInv(cfg, s) && s.P(r).pc in {BarrierPoll, BarrierRecv}
    ensures var st := s.Oob(r.Peer());
            && st.Valid() && st.taken == Base(cfg, r.Peer())
            && (TokenSent(cfg, s, r.Peer()) ==> |st.sent| == st.taken + |TOKEN|)
            && (!TokenSent(cfg, s, r.Peer()) ==> |st.sent| <= st.taken)
            && (s.P(r).pc.BarrierRecv? ==> TokenSent(cfg, s, r.Peer()) || SockClosed(s.P(r.Peer())))
    ensures var x := s.P(r.Peer()).pc;
            && (x.BarrierPoll? || x.BarrierRecv? ==> TokenSent(cfg, s, r.Peer()))
            && (x.Done? || x.Killed? ==> SockClosed(s.P(r.Peer())))
  {
    BarrierRet(cfg, s, r);
    if s.P(r.Peer()).pc in {BarrierPoll, BarrierRecv} { BarrierRet(cfg, s, r.Peer()); }
    Locs();
    hide Loc, ProcOk, ClientOk, ServerOk, OutOk, CleanProc, CleanOut;
  }

  lemma BarrierWait(cfg: Config, s: State, r: Role)
    requires Accepted(cfg) && LiveConfig(cfg) && Inv(cfg, s) && CleanInv(cfg, s)
         && s.P(r).pc in {BarrierPoll, BarrierRecv}
    ensures Useful(cfg, s)
  {
    BarrierFacts(cfg, s, r);
    hide Inv, CleanInv, SockClosed, TokenSent;
    var st := s.Oob(r.Peer());
    if st.arrived < |st.sent| {
      Delivers(cfg, s, r.Peer());
    } else if s.P(r).pc.BarrierPoll? && PollReady(s, r) {
      PollMoves(cfg, s, r);
    } else if s.P(r).pc.BarrierPoll? {
      RoleUseful(cfg, s, r.Peer());
    } else if |TOKEN| <= st.Avail() {
      Takes(cfg, s, r, |TOKEN|);
    } else {
      EofMoves(cfg, s, r, st.Avail());
    }
  }

  // -------------------------------------------------------------------------------------------
  // Theorems
  // -------------------------------------------------------------------------------------------

  /** Deadlock freedom: in a live configuration every state that a clean run reaches is finished or has
      a clean step that changes it. */
  lemma NeverStuck(cfg: Config, s: State)
    requires Accepted(cfg) && LiveConfig(cfg) && CleanReachable(cfg, s)
    ensures !Stuck(cfg, s)
  {
    CleanReachableInv(cfg, s);
    hide CleanReachable, Inv, CleanInv, Stuck;
    InvNotStuck(cfg, s);
  }

  lemma InvNotStuck(cfg: Config, s: State)
    requires Accepted(cfg) && LiveConfig(cfg) && Inv(cfg, s) && CleanInv(cfg, s)
    ensures !Stuck(cfg, s)
  {
    hide Inv, CleanInv;
    if !Finished(s) {
      if !AtBarrierOrEnd(s.c.pc) { RoleUseful(cfg, s, Client); }
      else if !AtBarrierOrEnd(s.s.pc) { RoleUseful(cfg, s, Server); }
      else if !Ended(s.c) { BarrierWait(cfg, s, Client); }
      else { BarrierWait(cfg, s, Server); }
    }
  }
}
